/**
 DefaultServerDispatcher as a labelled step system: one pump multiplexes all clients over three
 shared channels and a map of timeout contexts.

 A channel is the sequence of its buffered values followed by those of its parked senders. A
 queue removed by DeleteClient survives as long as the pump still refers to it, so the loop
 variable clientQueue is either a client that has a queue or the contents of an orphan.
 */
module ServerDispatcher {
  import opened Types
  import opened PendingState
  import Ch = Channel

  datatype Carried = NoQueue | Live(client: ClientId) | Orphan(contents: seq<Bundle>)

  /** A timeout context: Armed has a cancel function and a waiting goroutine. */
  datatype Context = Idle | Armed(timer: nat)

  datatype History = History(accepted: seq<Bundle>, finished: seq<Done>, writes: seq<Sent>)

  datatype State = State(
    queues: map<ClientId, seq<Bundle>>,
    capacity: nat,
    timed: bool,
    slots: map<ClientId, Bundle>,
    requests: seq<ClientId>,
    ready: seq<ClientId>,
    timeouts: seq<ClientId>,
    rdy: bool,
    carried: Carried,
    contexts: map<ClientId, Context>,
    timers: map<nat, ClientId>,
    nextTimer: nat,
    history: map<ClientId, History>)

  datatype Event =
    | Connect(client: ClientId)
    | Disconnect(client: ClientId)
    | Submit(client: ClientId, bundle: Bundle)
    | Answer(client: ClientId, id: string, rejected: bool)
    | Expire(timer: nat)
    | OnRequest(writeOk: bool)
    | OnTimeout(writeOk: bool)
    | OnReady(writeOk: bool)

  function Fresh(capacity: nat, timed: bool): (s: State) {
    State(map[], capacity, timed, map[], [], [], [], false, NoQueue, map[], map[], 0, map[])
  }

  // ----- One client's share of the state -----

  function QueueOf(s: State, c: ClientId): (q: seq<Bundle>) {
    if c in s.queues then s.queues[c] else []
  }

  function SlotOf(s: State, c: ClientId): (slot: Option<Bundle>) {
    if c in s.slots then Some(s.slots[c]) else None
  }

  function ContextOf(s: State, c: ClientId): (x: Context) {
    if c in s.contexts then s.contexts[c] else Idle
  }

  function HistoryOf(s: State, c: ClientId): (h: History) {
    if c in s.history then s.history[c] else History([], [], [])
  }

  function View(s: State, c: ClientId): (ch: Ch.Channel) {
    var h := HistoryOf(s, c);
    Ch.Channel(QueueOf(s, c), SlotOf(s, c), h.accepted, h.finished, h.writes)
  }

  function SetSlot(slots: map<ClientId, Bundle>, c: ClientId, slot: Option<Bundle>): (r: map<ClientId, Bundle>) {
    if slot.Some? then slots[c := slot.value] else slots - {c}
  }

  // ----- The operations the steps are made of -----

  predicate Accepts(s: State, c: ClientId) {
    c in s.queues && !(|s.queues[c]| >= s.capacity && s.capacity > 0)
  }

  /** CompleteRequest; o is recorded in the history only. */
  function Completed(s: State, c: ClientId, id: string, o: Outcome): (r: State) {
    var q := QueueOf(s, c);
    if q == [] || q[0].id != id then s
    else
      var h := HistoryOf(s, c);
      s.(queues := s.queues[c := q[1..]],
         slots := SetSlot(s.slots, c, DeletePending(SlotOf(s, c), id)),
         ready := s.ready + [c],
         history := s.history[c := h.(finished := h.finished + [Done(q[0], o)])])
  }

  /** Cancels the client's context if it is armed. */
  function Disarmed(s: State, c: ClientId): (r: State) {
    match ContextOf(s, c)
    case Idle => s
    case Armed(k) => s.(contexts := s.contexts[c := Idle], timers := s.timers - {k})
  }

  /** dispatchNextRequest up to the write. */
  function HeadWritten(s: State, c: ClientId): (r: State)
    requires QueueOf(s, c) != []
  {
    var b := s.queues[c][0];
    var h := HistoryOf(s, c);
    s.(slots := SetSlot(s.slots, c, AddPending(SlotOf(s, c), b)),
       history := s.history[c := h.(writes := h.writes + [Sent(|h.finished|, b)])])
  }

  /** The rest of dispatchNextRequest after a failed write. */
  function WriteRefused(s: State, c: ClientId): (r: State)
    requires QueueOf(s, c) != []
  {
    var t := Completed(HeadWritten(s, c), c, s.queues[c][0].id, WriteFailed);
    t.(contexts := t.contexts[c := Idle])
  }

  /** The rest of dispatchNextRequest after a successful write: a context only if a timeout is set. */
  function WriteDone(s: State, c: ClientId): (r: State)
    requires QueueOf(s, c) != []
  {
    var t := HeadWritten(s, c);
    if s.timed then
      t.(contexts := t.contexts[c := Armed(t.nextTimer)],
         timers := t.timers[t.nextTimer := c],
         nextTimer := t.nextTimer + 1)
    else t.(contexts := t.contexts[c := Idle])
  }

  /** dispatchNextRequest and the context it leaves in the map. */
  function Dispatched(s: State, c: ClientId, writeOk: bool): (r: State)
    requires c in s.queues ==> s.queues[c] != []
  {
    if c !in s.queues then s.(contexts := s.contexts[c := Idle])
    else if writeOk then WriteDone(s, c)
    else WriteRefused(s, c)
  }

  function Contents(s: State): (q: seq<Bundle>) {
    match s.carried
    case NoQueue => []
    case Live(c) => QueueOf(s, c)
    case Orphan(q) => q
  }

  /** The test before dispatching: it looks at the carried variables, not at the event's client. */
  predicate WillDispatch(s: State) {
    s.rdy && Contents(s) != []
  }

  /** dispatchNextRequest would dereference the head of an empty queue. */
  predicate TailCrashes(s: State, c: ClientId) {
    WillDispatch(s) && c in s.queues && s.queues[c] == []
  }

  function Tail(s: State, c: ClientId, writeOk: bool): (r: State)
    requires !TailCrashes(s, c)
  {
    if WillDispatch(s) then Dispatched(s, c, writeOk).(rdy := false) else s
  }

  /** A failed write completes the request, which sends on the ready channel. */
  predicate TailBlocks(s: State, c: ClientId, writeOk: bool) {
    WillDispatch(s) && QueueOf(s, c) != [] && !writeOk && s.ready != []
  }

  /** A request signal of a client that has a queue: it may transmit unless its context is armed. */
  function RequestSeen(s: State): (r: State)
    requires s.requests != []
  {
    var c := s.requests[0];
    s.(requests := s.requests[1..], carried := Live(c), rdy := ContextOf(s, c).Idle?)
  }

  /** A signal of a removed client: its context is cancelled and forgotten. */
  function ClientForgotten(s: State): (r: State)
    requires s.requests != []
  {
    var c := s.requests[0];
    var t := Disarmed(s, c);
    t.(requests := t.requests[1..], carried := NoQueue, contexts := t.contexts - {c})
  }

  function TimeoutTaken(s: State): (r: State)
    requires s.timeouts != []
    requires s.timeouts[0] in s.slots ==> QueueOf(s, s.timeouts[0]) != []
  {
    var c := s.timeouts[0];
    var t := Disarmed(s, c).(timeouts := s.timeouts[1..]);
    if c in s.slots then Completed(t, c, s.queues[c][0].id, TimedOut) else t
  }

  function ReadyTaken(s: State): (r: State)
    requires s.ready != []
  {
    var c := s.ready[0];
    var t := Disarmed(s, c);
    var rdy := s.rdy || c in s.queues;
    t.(ready := t.ready[1..], carried := if c in s.queues then Live(c) else NoQueue, rdy := rdy)
  }

  // ----- Steps -----

  predicate Offered(s: State, e: Event) {
    match e
    case Connect(_) => true
    case Disconnect(_) => true
    case Submit(_, b) => b.id != ""
    case Answer(_, id, _) => id != ""
    case Expire(k) => k in s.timers
    case OnRequest(_) => s.requests != []
    case OnTimeout(_) => s.timeouts != []
    case OnReady(_) => s.ready != []
  }

  /** The pump would park on its own full ready channel, of which it is the only receiver. */
  predicate Blocks(s: State, e: Event) {
    match e
    case OnRequest(ok) =>
      s.requests != [] && s.requests[0] in s.queues && TailBlocks(RequestSeen(s), s.requests[0], ok)
    case OnReady(ok) =>
      s.ready != [] && TailBlocks(ReadyTaken(s), s.ready[0], ok)
    case OnTimeout(ok) =>
      && s.timeouts != []
      && (s.timeouts[0] in s.slots ==> QueueOf(s, s.timeouts[0]) != [])
      && ((s.timeouts[0] in s.slots && s.ready != []) || TailBlocks(TimeoutTaken(s), s.timeouts[0], ok))
    case _ => false
  }

  /** The pump would dereference the head of an empty queue. */
  predicate Crashes(s: State, e: Event) {
    match e
    case OnRequest(_) =>
      s.requests != [] && s.requests[0] in s.queues && TailCrashes(RequestSeen(s), s.requests[0])
    case OnReady(_) =>
      s.ready != [] && TailCrashes(ReadyTaken(s), s.ready[0])
    case OnTimeout(_) =>
      && s.timeouts != []
      && (if s.timeouts[0] in s.slots && QueueOf(s, s.timeouts[0]) == [] then true
          else TailCrashes(TimeoutTaken(s), s.timeouts[0]))
    case _ => false
  }

  predicate Enabled(s: State, e: Event) {
    Offered(s, e) && !Crashes(s, e) && !Blocks(s, e)
  }

  function Connected(s: State, c: ClientId): (r: State) {
    if c in s.queues then s else s.(queues := s.queues[c := []])
  }

  /** DeleteClient followed by ClearClientPendingRequest. */
  function Disconnected(s: State, c: ClientId): (r: State) {
    var h := HistoryOf(s, c);
    s.(queues := s.queues - {c},
       carried := if s.carried == Live(c) then Orphan(QueueOf(s, c)) else s.carried,
       requests := s.requests + [c],
       slots := s.slots - {c},
       history := s.history[c := h.(finished := h.finished + Ch.Discarded(QueueOf(s, c), SlotOf(s, c)))])
  }

  function Submitted(s: State, c: ClientId, b: Bundle): (r: State) {
    if !Accepts(s, c) then s
    else
      var h := HistoryOf(s, c);
      s.(queues := s.queues[c := s.queues[c] + [b]],
         requests := s.requests + [c],
         history := s.history[c := h.(accepted := h.accepted + [b])])
  }

  predicate Expected(s: State, c: ClientId, id: string) {
    c in s.slots && s.slots[c].id == id
  }

  function Step(s: State, e: Event): (r: State)
    requires Enabled(s, e)
  {
    match e
    case Connect(c) => Connected(s, c)
    case Disconnect(c) => Disconnected(s, c)
    case Submit(c, b) => Submitted(s, c, b)
    case Answer(c, id, rejected) =>
      if Expected(s, c, id) then Completed(s, c, id, Verdict(s.slots[c], rejected)) else s
    case Expire(k) => s.(timeouts := s.timeouts + [s.timers[k]], timers := s.timers - {k})
    case OnRequest(ok) =>
      if s.requests[0] in s.queues then Tail(RequestSeen(s), s.requests[0], ok) else ClientForgotten(s)
    case OnTimeout(ok) => Tail(TimeoutTaken(s), s.timeouts[0], ok)
    case OnReady(ok) => Tail(ReadyTaken(s), s.ready[0], ok)
  }

  ghost predicate Runs(s: State, es: seq<Event>)
    decreases |es|
  {
    es == [] || (Enabled(s, es[0]) && Runs(Step(s, es[0]), es[1..]))
  }

  ghost function After(s: State, es: seq<Event>): (r: State)
    requires Runs(s, es)
    decreases |es|
  {
    if es == [] then s else After(Step(s, es[0]), es[1..])
  }

  lemma {:induction false} Extend(s: State, es: seq<Event>, e: Event)
    requires Runs(s, es) && Enabled(After(s, es), e)
    ensures Runs(s, es + [e]) && After(s, es + [e]) == Step(After(s, es), e)
    decreases |es|
  {
    if es == [] {
      assert [e][1..] == [] && es + [e] == [e];
    } else {
      Extend(Step(s, es[0]), es[1..], e);
      assert (es + [e])[1..] == es[1..] + [e];
    }
  }

  // ----- Isolation -----

  /** The only client a step concerns, if any. */
  function Target(s: State, e: Event): (t: Option<ClientId>)
    requires Offered(s, e)
  {
    match e
    case Connect(c) => Some(c)
    case Disconnect(c) => Some(c)
    case Submit(c, _) => Some(c)
    case Answer(c, _, _) => Some(c)
    case Expire(_) => None
    case OnRequest(_) => Some(s.requests[0])
    case OnTimeout(_) => Some(s.timeouts[0])
    case OnReady(_) => Some(s.ready[0])
  }

  /** Everything the dispatcher stores about c is the same in both states. */
  predicate SameFor(s: State, t: State, c: ClientId) {
    && View(t, c) == View(s, c)
    && (c in t.queues <==> c in s.queues)
    && ContextOf(t, c) == ContextOf(s, c)
  }

  lemma SameTransitive(s: State, t: State, u: State, d: ClientId)
    requires SameFor(s, t, d) && SameFor(t, u, d)
    ensures SameFor(s, u, d)
  {
  }

  lemma CompletedIsolates(s: State, c: ClientId, id: string, o: Outcome, d: ClientId)
    requires d != c
    ensures SameFor(s, Completed(s, c, id, o), d)
  {
  }

  lemma HeadWrittenIsolates(s: State, c: ClientId, d: ClientId)
    requires d != c && QueueOf(s, c) != []
    ensures SameFor(s, HeadWritten(s, c), d)
  {
  }

  lemma DisarmedIsolates(s: State, c: ClientId, d: ClientId)
    requires d != c
    ensures SameFor(s, Disarmed(s, c), d)
  {
  }

  lemma WriteRefusedIsolates(s: State, c: ClientId, d: ClientId)
    requires QueueOf(s, c) != [] && d != c
    ensures SameFor(s, WriteRefused(s, c), d)
  {
    var w := HeadWritten(s, c);
    var t := Completed(w, c, s.queues[c][0].id, WriteFailed);
    HeadWrittenIsolates(s, c, d);
    CompletedIsolates(w, c, s.queues[c][0].id, WriteFailed, d);
    SameTransitive(s, w, t, d);
    assert SameFor(t, t.(contexts := t.contexts[c := Idle]), d);
  }

  lemma WriteDoneIsolates(s: State, c: ClientId, d: ClientId)
    requires QueueOf(s, c) != [] && d != c
    ensures SameFor(s, WriteDone(s, c), d)
  {
    HeadWrittenIsolates(s, c, d);
    assert SameFor(HeadWritten(s, c), WriteDone(s, c), d);
    SameTransitive(s, HeadWritten(s, c), WriteDone(s, c), d);
  }

  lemma DispatchedIsolates(s: State, c: ClientId, writeOk: bool, d: ClientId)
    requires (c in s.queues ==> s.queues[c] != []) && d != c
    ensures SameFor(s, Dispatched(s, c, writeOk), d)
  {
    if c in s.queues {
      if writeOk { WriteDoneIsolates(s, c, d); } else { WriteRefusedIsolates(s, c, d); }
    }
  }

  lemma TailIsolates(s: State, c: ClientId, writeOk: bool, d: ClientId)
    requires !TailCrashes(s, c) && d != c
    ensures SameFor(s, Tail(s, c, writeOk), d)
  {
    if WillDispatch(s) {
      DispatchedIsolates(s, c, writeOk, d);
    }
  }

  lemma ForgottenIsolates(s: State, d: ClientId)
    requires s.requests != [] && d != s.requests[0]
    ensures SameFor(s, ClientForgotten(s), d)
  {
    DisarmedIsolates(s, s.requests[0], d);
    assert SameFor(Disarmed(s, s.requests[0]), ClientForgotten(s), d);
  }

  lemma ReadyIsolates(s: State, d: ClientId)
    requires s.ready != [] && d != s.ready[0]
    ensures SameFor(s, ReadyTaken(s), d)
  {
    DisarmedIsolates(s, s.ready[0], d);
    assert SameFor(Disarmed(s, s.ready[0]), ReadyTaken(s), d);
  }

  lemma TimeoutIsolates(s: State, d: ClientId)
    requires s.timeouts != [] && d != s.timeouts[0]
    requires s.timeouts[0] in s.slots ==> QueueOf(s, s.timeouts[0]) != []
    ensures SameFor(s, TimeoutTaken(s), d)
  {
    var c := s.timeouts[0];
    var t := Disarmed(s, c).(timeouts := s.timeouts[1..]);
    DisarmedIsolates(s, c, d);
    assert SameFor(Disarmed(s, c), t, d);
    if c in s.slots {
      CompletedIsolates(t, c, s.queues[c][0].id, TimedOut, d);
      SameTransitive(s, t, TimeoutTaken(s), d);
    }
  }

  lemma SubmittedIsolates(s: State, c: ClientId, b: Bundle, d: ClientId)
    requires d != c
    ensures SameFor(s, Submitted(s, c, b), d)
  {
  }

  lemma DisconnectedIsolates(s: State, c: ClientId, d: ClientId)
    requires d != c
    ensures SameFor(s, Disconnected(s, c), d)
  {
  }

  lemma ConnectedIsolates(s: State, c: ClientId, d: ClientId)
    requires d != c
    ensures SameFor(s, Connected(s, c), d)
  {
  }

  lemma OnRequestIsolates(s: State, writeOk: bool, d: ClientId)
    requires Enabled(s, OnRequest(writeOk)) && d != s.requests[0]
    ensures SameFor(s, Step(s, OnRequest(writeOk)), d)
  {
    if s.requests[0] in s.queues {
      var t := RequestSeen(s);
      assert SameFor(s, t, d);
      TailIsolates(t, s.requests[0], writeOk, d);
      SameTransitive(s, t, Tail(t, s.requests[0], writeOk), d);
    } else {
      ForgottenIsolates(s, d);
    }
  }

  lemma OnTimeoutIsolates(s: State, writeOk: bool, d: ClientId)
    requires Enabled(s, OnTimeout(writeOk)) && d != s.timeouts[0]
    ensures SameFor(s, Step(s, OnTimeout(writeOk)), d)
  {
    var t := TimeoutTaken(s);
    TimeoutIsolates(s, d);
    TailIsolates(t, s.timeouts[0], writeOk, d);
    SameTransitive(s, t, Tail(t, s.timeouts[0], writeOk), d);
  }

  lemma OnReadyIsolates(s: State, writeOk: bool, d: ClientId)
    requires Enabled(s, OnReady(writeOk)) && d != s.ready[0]
    ensures SameFor(s, Step(s, OnReady(writeOk)), d)
  {
    var t := ReadyTaken(s);
    ReadyIsolates(s, d);
    TailIsolates(t, s.ready[0], writeOk, d);
    SameTransitive(s, t, Tail(t, s.ready[0], writeOk), d);
  }

  lemma AnswerIsolates(s: State, c: ClientId, id: string, rejected: bool, d: ClientId)
    requires Enabled(s, Answer(c, id, rejected)) && d != c
    ensures SameFor(s, Step(s, Answer(c, id, rejected)), d)
  {
    if Expected(s, c, id) { CompletedIsolates(s, c, id, Verdict(s.slots[c], rejected), d); }
  }

  /** A step for one client never changes another client's queue, slot, context or history. */
  lemma StepIsolates(s: State, e: Event, d: ClientId)
    requires Enabled(s, e) && Target(s, e) != Some(d)
    ensures SameFor(s, Step(s, e), d)
  {
    match e
    case OnRequest(ok) => OnRequestIsolates(s, ok, d);
    case OnTimeout(ok) => OnTimeoutIsolates(s, ok, d);
    case OnReady(ok) => OnReadyIsolates(s, ok, d);
    case Submit(c, b) => SubmittedIsolates(s, c, b, d);
    case Disconnect(c) => DisconnectedIsolates(s, c, d);
    case Answer(c, id, rejected) => AnswerIsolates(s, c, id, rejected, d);
    case Connect(c) => ConnectedIsolates(s, c, d);
    case Expire(_) =>
  }

  // ----- Refinement of one channel per client -----

  function DispatchOps(s: State, c: ClientId, writeOk: bool): (ops: seq<Ch.Op>) {
    var first := if c in s.slots then Ch.Resend else Ch.Send;
    if c !in s.queues then [] else if writeOk then [first] else [first, Ch.Finish(WriteFailed)]
  }

  function TailOps(s: State, c: ClientId, writeOk: bool): (ops: seq<Ch.Op>) {
    if WillDispatch(s) then DispatchOps(s, c, writeOk) else []
  }

  /** What the target's channel does while the dispatcher takes step e. */
  function TargetOps(s: State, e: Event): (ops: seq<Ch.Op>)
    requires Enabled(s, e)
  {
    match e
    case Connect(_) => []
    case Disconnect(_) => [Ch.Discard]
    case Submit(c, b) => if Accepts(s, c) then [Ch.Accept(b)] else []
    case Answer(c, id, rejected) =>
      if Expected(s, c, id) then [Ch.Finish(Verdict(s.slots[c], rejected))] else []
    case Expire(_) => []
    case OnRequest(ok) =>
      if s.requests[0] in s.queues then TailOps(RequestSeen(s), s.requests[0], ok) else []
    case OnTimeout(ok) =>
      (if s.timeouts[0] in s.slots then [Ch.Finish(TimedOut)] else [])
      + TailOps(TimeoutTaken(s), s.timeouts[0], ok)
    case OnReady(ok) => TailOps(ReadyTaken(s), s.ready[0], ok)
  }

  /** The projection of step e on client c. */
  function Ops(s: State, e: Event, c: ClientId): (ops: seq<Ch.Op>)
    requires Enabled(s, e)
  {
    if Target(s, e) == Some(c) then TargetOps(s, e) else []
  }

  ghost predicate Matches(s: State, t: State, c: ClientId, ops: seq<Ch.Op>) {
    Ch.Valid(View(s, c), ops) && Ch.After(View(s, c), ops) == View(t, c)
  }

  lemma HeadWrittenView(s: State, c: ClientId)
    requires Ch.Shape(View(s, c)) && QueueOf(s, c) != []
    ensures var op := if c in s.slots then Ch.Resend else Ch.Send;
            Ch.Can(View(s, c), op) && View(HeadWritten(s, c), c) == Ch.Apply(View(s, c), op)
  {
  }

  lemma CompletedView(s: State, c: ClientId, o: Outcome)
    requires Ch.Shape(View(s, c)) && c in s.slots && Fits(o, s.slots[c])
    ensures QueueOf(s, c) != [] && QueueOf(s, c)[0] == s.slots[c]
    ensures View(Completed(s, c, s.slots[c].id, o), c) == Ch.Apply(View(s, c), Ch.Finish(o))
    ensures Completed(s, c, s.slots[c].id, o).ready == s.ready + [c]
  {
  }

  lemma WriteRefusedMatches(s: State, c: ClientId)
    requires Ch.Inv(View(s, c)) && QueueOf(s, c) != []
    ensures Matches(s, WriteRefused(s, c), c, DispatchOps(s, c, false))
  {
    var op := if c in s.slots then Ch.Resend else Ch.Send;
    HeadWrittenView(s, c);
    Ch.InvStep(View(s, c), op);
    var w := HeadWritten(s, c);
    CompletedView(w, c, WriteFailed);
    assert View(WriteRefused(s, c), c) == View(Completed(w, c, s.queues[c][0].id, WriteFailed), c);
    Ch.TwoOps(View(s, c), op, Ch.Finish(WriteFailed));
  }

  lemma WriteDoneMatches(s: State, c: ClientId)
    requires Ch.Inv(View(s, c)) && QueueOf(s, c) != []
    ensures Matches(s, WriteDone(s, c), c, DispatchOps(s, c, true))
  {
    HeadWrittenView(s, c);
    assert View(WriteDone(s, c), c) == View(HeadWritten(s, c), c);
    Ch.OneOp(View(s, c), if c in s.slots then Ch.Resend else Ch.Send);
  }

  lemma DispatchMatches(s: State, c: ClientId, writeOk: bool)
    requires Ch.Inv(View(s, c)) && (c in s.queues ==> s.queues[c] != [])
    ensures Matches(s, Dispatched(s, c, writeOk), c, DispatchOps(s, c, writeOk))
  {
    if c in s.queues {
      if writeOk { WriteDoneMatches(s, c); } else { WriteRefusedMatches(s, c); }
    }
  }

  lemma TailMatches(s: State, c: ClientId, writeOk: bool)
    requires Ch.Inv(View(s, c)) && !TailCrashes(s, c)
    ensures Matches(s, Tail(s, c, writeOk), c, TailOps(s, c, writeOk))
  {
    if WillDispatch(s) {
      DispatchMatches(s, c, writeOk);
    }
  }

  lemma DisarmedView(s: State, c: ClientId)
    ensures View(Disarmed(s, c), c) == View(s, c)
    ensures Disarmed(s, c).queues == s.queues && Disarmed(s, c).slots == s.slots
    ensures ContextOf(Disarmed(s, c), c).Idle?
  {
  }

  lemma TimeoutTakenMatches(s: State)
    requires s.timeouts != [] && Ch.Inv(View(s, s.timeouts[0]))
    ensures var c := s.timeouts[0];
            && (c in s.slots ==> QueueOf(s, c) != [])
            && Matches(s, TimeoutTaken(s), c, if c in s.slots then [Ch.Finish(TimedOut)] else [])
            && Ch.Inv(View(TimeoutTaken(s), c))
  {
    var c := s.timeouts[0];
    DisarmedView(s, c);
    var t := Disarmed(s, c).(timeouts := s.timeouts[1..]);
    assert View(t, c) == View(s, c);
    if c in s.slots {
      CompletedView(t, c, TimedOut);
      Ch.OneOp(View(s, c), Ch.Finish(TimedOut));
      Ch.InvStep(View(s, c), Ch.Finish(TimedOut));
    }
  }

  lemma TimeoutMatches(s: State, writeOk: bool)
    requires Enabled(s, OnTimeout(writeOk)) && Ch.Inv(View(s, s.timeouts[0]))
    ensures Matches(s, Step(s, OnTimeout(writeOk)), s.timeouts[0], TargetOps(s, OnTimeout(writeOk)))
  {
    var c := s.timeouts[0];
    TimeoutTakenMatches(s);
    TailMatches(TimeoutTaken(s), c, writeOk);
    Ch.RunsCompose(View(s, c), if c in s.slots then [Ch.Finish(TimedOut)] else [],
                   TailOps(TimeoutTaken(s), c, writeOk));
  }

  lemma CallerMatches(s: State, e: Event, c: ClientId)
    requires Enabled(s, e) && Target(s, e) == Some(c) && Ch.Inv(View(s, c))
    requires e.Connect? || e.Disconnect? || e.Submit? || e.Answer?
    ensures Matches(s, Step(s, e), c, TargetOps(s, e))
  {
    match e
    case Connect(_) =>
    case Disconnect(_) => Ch.OneOp(View(s, c), Ch.Discard);
    case Submit(_, b) => if Accepts(s, c) { Ch.OneOp(View(s, c), Ch.Accept(b)); }
    case Answer(_, id, rejected) =>
      if Expected(s, c, id) {
        CompletedView(s, c, Verdict(s.slots[c], rejected));
        Ch.OneOp(View(s, c), Ch.Finish(Verdict(s.slots[c], rejected)));
      }
  }

  lemma ForgottenView(s: State)
    requires s.requests != []
    ensures View(ClientForgotten(s), s.requests[0]) == View(s, s.requests[0])
  {
    DisarmedView(s, s.requests[0]);
  }

  lemma SeenMatches(s: State, writeOk: bool)
    requires s.requests != [] && Ch.Inv(View(s, s.requests[0])) && !TailCrashes(RequestSeen(s), s.requests[0])
    ensures var t := RequestSeen(s);
            Matches(s, Tail(t, s.requests[0], writeOk), s.requests[0], TailOps(t, s.requests[0], writeOk))
  {
    assert View(RequestSeen(s), s.requests[0]) == View(s, s.requests[0]);
    TailMatches(RequestSeen(s), s.requests[0], writeOk);
  }

  lemma RequestMatches(s: State, writeOk: bool)
    requires Enabled(s, OnRequest(writeOk)) && Ch.Inv(View(s, s.requests[0]))
    ensures Matches(s, Step(s, OnRequest(writeOk)), s.requests[0], TargetOps(s, OnRequest(writeOk)))
  {
    if s.requests[0] in s.queues {
      SeenMatches(s, writeOk);
    } else {
      ForgottenView(s);
    }
  }

  lemma ReadyView(s: State)
    requires s.ready != []
    ensures View(ReadyTaken(s), s.ready[0]) == View(s, s.ready[0])
  {
    DisarmedView(s, s.ready[0]);
  }

  lemma ReadyMatches(s: State, writeOk: bool)
    requires Enabled(s, OnReady(writeOk)) && Ch.Inv(View(s, s.ready[0]))
    ensures Matches(s, Step(s, OnReady(writeOk)), s.ready[0], TargetOps(s, OnReady(writeOk)))
  {
    ReadyView(s);
    TailMatches(ReadyTaken(s), s.ready[0], writeOk);
  }

  /** The target of a step sees at most three operations of its channel. */
  lemma TargetRefines(s: State, e: Event, c: ClientId)
    requires Enabled(s, e) && Target(s, e) == Some(c) && Ch.Inv(View(s, c))
    ensures Matches(s, Step(s, e), c, TargetOps(s, e))
  {
    match e
    case OnRequest(ok) => RequestMatches(s, ok);
    case OnTimeout(ok) => TimeoutMatches(s, ok);
    case OnReady(ok) => ReadyMatches(s, ok);
    case _ => CallerMatches(s, e, c);
  }

  /** Every step, projected on any one client, is a short run of that client's channel. */
  lemma StepRefines(s: State, e: Event, c: ClientId)
    requires Enabled(s, e) && Ch.Inv(View(s, c))
    ensures Matches(s, Step(s, e), c, Ops(s, e, c))
    ensures Ch.Inv(View(Step(s, e), c))
  {
    if Target(s, e) == Some(c) {
      TargetRefines(s, e, c);
    } else {
      StepIsolates(s, e, c);
    }
    Ch.InvRun(View(s, c), Ops(s, e, c));
  }

  ghost function RunOps(s: State, es: seq<Event>, c: ClientId): (ops: seq<Ch.Op>)
    requires Runs(s, es)
    decreases |es|
  {
    if es == [] then [] else Ops(s, es[0], c) + RunOps(Step(s, es[0]), es[1..], c)
  }

  lemma {:induction false} RunRefinesFrom(s: State, es: seq<Event>, c: ClientId)
    requires Runs(s, es) && Ch.Inv(View(s, c))
    ensures Matches(s, After(s, es), c, RunOps(s, es, c))
    ensures Ch.Inv(View(After(s, es), c))
    decreases |es|
  {
    if es != [] {
      StepRefines(s, es[0], c);
      RunRefinesFrom(Step(s, es[0]), es[1..], c);
      Ch.RunsCompose(View(s, c), Ops(s, es[0], c), RunOps(Step(s, es[0]), es[1..], c));
    }
  }

  /**
   The multiplexer acts like independent channels: every run, projected on any client, is a run
   of the one-outstanding FIFO channel, so for that client requests are conserved, a pending id
   is the id of the head of its queue and CALLs go out in order, one outstanding at a time.
   */
  lemma ServerRefinesChannels(capacity: nat, timed: bool, es: seq<Event>, c: ClientId)
    requires Runs(Fresh(capacity, timed), es)
    ensures var s0 := Fresh(capacity, timed); var s := After(s0, es);
            && Ch.Valid(Ch.EMPTY, RunOps(s0, es, c))
            && View(s, c) == Ch.After(Ch.EMPTY, RunOps(s0, es, c))
            && Ch.PendingIsHead(View(s, c))
            && Ch.Conserved(View(s, c))
            && Ch.WireInOrder(View(s, c))
  {
    assert View(Fresh(capacity, timed), c) == Ch.EMPTY;
    RunRefinesFrom(Fresh(capacity, timed), es, c);
  }

  // ----- Repeated writes -----

  /** c's pending request is written again: by a token, or by a signal that finds the context idle. */
  predicate Rewrites(s: State, e: Event, c: ClientId)
    requires Offered(s, e)
  {
    && Target(s, e) == Some(c) && c in s.slots
    && (e.OnReady? || (e.OnRequest? && ContextOf(s, c).Idle?))
  }

  ghost function RewriteCount(s: State, es: seq<Event>, c: ClientId): (n: nat)
    requires Runs(s, es)
    decreases |es|
  {
    if es == [] then 0
    else (if Rewrites(s, es[0], c) then 1 else 0) + RewriteCount(Step(s, es[0]), es[1..], c)
  }

  lemma TailResends(s: State, c: ClientId, writeOk: bool)
    ensures Ch.Resends(TailOps(s, c, writeOk))
         == if WillDispatch(s) && c in s.queues && c in s.slots then 1 else 0
  {
    var first := if c in s.slots then Ch.Resend else Ch.Send;
    Ch.ResendsShort(first, Ch.Finish(WriteFailed));
  }

  lemma RequestRewritesIff(s: State, writeOk: bool)
    requires Enabled(s, OnRequest(writeOk)) && Ch.Shape(View(s, s.requests[0]))
    ensures Ch.Resends(TargetOps(s, OnRequest(writeOk)))
         == if s.requests[0] in s.slots && ContextOf(s, s.requests[0]).Idle? then 1 else 0
  {
    TailResends(RequestSeen(s), s.requests[0], writeOk);
  }

  lemma ReadyRewritesIff(s: State, writeOk: bool)
    requires Enabled(s, OnReady(writeOk)) && Ch.Shape(View(s, s.ready[0]))
    ensures Ch.Resends(TargetOps(s, OnReady(writeOk))) == if s.ready[0] in s.slots then 1 else 0
  {
    DisarmedView(s, s.ready[0]);
    TailResends(ReadyTaken(s), s.ready[0], writeOk);
  }

  lemma TimeoutFreesSlot(s: State)
    requires s.timeouts != [] && Ch.Shape(View(s, s.timeouts[0]))
    ensures s.timeouts[0] in s.slots ==> QueueOf(s, s.timeouts[0]) != []
    ensures s.timeouts[0] !in TimeoutTaken(s).slots
  {
    var c := s.timeouts[0];
    DisarmedView(s, c);
    if c in s.slots {
      var t := Disarmed(s, c).(timeouts := s.timeouts[1..]);
      CompletedView(t, c, TimedOut);
      assert SlotOf(TimeoutTaken(s), c) == View(TimeoutTaken(s), c).pending;
    }
  }

  /** A timeout completes the pending request first, so it never repeats one. */
  lemma TimeoutNeverRewrites(s: State, writeOk: bool)
    requires Enabled(s, OnTimeout(writeOk)) && Ch.Shape(View(s, s.timeouts[0]))
    ensures Ch.Resends(TargetOps(s, OnTimeout(writeOk))) == 0
  {
    var c := s.timeouts[0];
    var first := if c in s.slots then [Ch.Finish(TimedOut)] else [];
    TimeoutFreesSlot(s);
    TailResends(TimeoutTaken(s), c, writeOk);
    Ch.ResendsAppend(first, TailOps(TimeoutTaken(s), c, writeOk));
  }

  lemma CallerNeverRewrites(s: State, e: Event)
    requires Enabled(s, e) && !e.OnRequest? && !e.OnReady? && !e.OnTimeout?
    ensures Ch.Resends(TargetOps(s, e)) == 0
  {
    if TargetOps(s, e) != [] {
      Ch.ResendsShort(TargetOps(s, e)[0], Ch.Discard);
      assert TargetOps(s, e) == [TargetOps(s, e)[0]];
    }
  }

  lemma TargetRewritesIff(s: State, e: Event, c: ClientId)
    requires Enabled(s, e) && Target(s, e) == Some(c) && Ch.Shape(View(s, c))
    ensures Ch.Resends(TargetOps(s, e)) == if Rewrites(s, e, c) then 1 else 0
  {
    match e
    case OnRequest(ok) => RequestRewritesIff(s, ok);
    case OnReady(ok) => ReadyRewritesIff(s, ok);
    case OnTimeout(ok) => TimeoutNeverRewrites(s, ok);
    case _ => CallerNeverRewrites(s, e);
  }

  lemma RewritesIff(s: State, e: Event, c: ClientId)
    requires Enabled(s, e) && Ch.Shape(View(s, c))
    ensures Ch.Resends(Ops(s, e, c)) == if Rewrites(s, e, c) then 1 else 0
  {
    if Target(s, e) == Some(c) {
      TargetRewritesIff(s, e, c);
    }
  }

  lemma {:induction false} RewriteRun(s: State, es: seq<Event>, c: ClientId)
    requires Ch.Inv(View(s, c)) && Runs(s, es)
    ensures Ch.Resends(RunOps(s, es, c)) == RewriteCount(s, es, c)
    decreases |es|
  {
    if es != [] {
      StepRefines(s, es[0], c);
      RewritesIff(s, es[0], c);
      RewriteRun(Step(s, es[0]), es[1..], c);
      Ch.ResendsAppend(Ops(s, es[0], c), RunOps(Step(s, es[0]), es[1..], c));
    }
  }

  /**
   For every client, the writes of a run beyond one per written request are counted by the steps
   that meet the guard; none of its requests is written twice if and only if no step did.
   */
  lemma WrittenOnceIff(capacity: nat, timed: bool, es: seq<Event>, c: ClientId)
    requires Runs(Fresh(capacity, timed), es)
    ensures var s0 := Fresh(capacity, timed); var ch := View(After(s0, es), c);
            var n := RewriteCount(s0, es, c);
            && |ch.writes| == |Ch.Written(ch.finished)| + |Ch.Outstanding(ch)| + n
            && (Ch.WrittenOnce(ch) <==> n == 0)
  {
    var s0 := Fresh(capacity, timed);
    assert View(s0, c) == Ch.EMPTY;
    RewriteRun(s0, es, c);
    RunRefinesFrom(s0, es, c);
    Ch.SurplusIsResends(RunOps(s0, es, c));
  }

  /**
   A request is appended, and the pump told, if the client is connected and its queue is unbounded
   or has room; otherwise it leaves no trace.
   */
  lemma SubmitAppendsIffRoom(s: State, c: ClientId, b: Bundle)
    requires Enabled(s, Submit(c, b))
    ensures var t := Step(s, Submit(c, b));
            if c in s.queues && (s.capacity == 0 || |s.queues[c]| < s.capacity)
            then QueueOf(t, c) == s.queues[c] + [b] && t.requests == s.requests + [c]
                 && HistoryOf(t, c).accepted == HistoryOf(s, c).accepted + [b]
            else t == s
  {
  }

  // ----- Answers -----

  ghost predicate DistinctIds(bs: seq<Bundle>) {
    forall i, j :: 0 <= i < j < |bs| ==> bs[i].id != bs[j].id
  }

  /** An answer for any id but the pending one, early, late or repeated, changes nothing. */
  lemma UnexpectedAnswerIgnored(s: State, c: ClientId, id: string, rejected: bool)
    requires Enabled(s, Answer(c, id, rejected)) && Ch.Inv(View(s, c))
    ensures Step(s, Answer(c, id, rejected)) == s <==> SlotOf(s, c).None? || SlotOf(s, c).value.id != id
  {
    if Expected(s, c, id) {
      CompletedView(s, c, Verdict(s.slots[c], rejected));
      assert |Step(s, Answer(c, id, rejected)).ready| == |s.ready| + 1;
    }
  }

  /** If ids are not reused, a finished request never becomes pending again. */
  lemma FinishedNotPending(s: State, c: ClientId, i: nat)
    requires Ch.Inv(View(s, c)) && DistinctIds(HistoryOf(s, c).accepted)
    requires i < |HistoryOf(s, c).finished|
    ensures !Expected(s, c, HistoryOf(s, c).finished[i].bundle.id)
  {
    var h := HistoryOf(s, c);
    if c in s.slots {
      Ch.BundlesAt(h.finished);
      assert h.accepted[i] == h.finished[i].bundle;
      assert h.accepted[|h.finished|] == QueueOf(s, c)[0];
    }
  }

  /**
   Over whole runs: once an answer for id was accepted, no later answer for the same id is, as
   long as the ids of the client's accepted requests are distinct.
   */
  lemma AnsweredOnce(s: State, c: ClientId, id: string, rejected: bool, es: seq<Event>)
    requires Ch.Inv(View(s, c)) && Expected(s, c, id)
    requires Enabled(s, Answer(c, id, rejected))
    requires Runs(Step(s, Answer(c, id, rejected)), es)
    requires DistinctIds(HistoryOf(After(Step(s, Answer(c, id, rejected)), es), c).accepted)
    ensures !Expected(After(Step(s, Answer(c, id, rejected)), es), c, id)
  {
    var t := Step(s, Answer(c, id, rejected));
    var u := After(t, es);
    var k := |HistoryOf(s, c).finished|;
    CompletedView(s, c, Verdict(s.slots[c], rejected));
    StepRefines(s, Answer(c, id, rejected), c);
    assert HistoryOf(t, c).finished[k].bundle == s.slots[c];
    RunRefinesFrom(t, es, c);
    Ch.HistoryGrows(View(t, c), RunOps(t, es, c));
    assert HistoryOf(u, c).finished[k] == HistoryOf(t, c).finished[k];
    FinishedNotPending(u, c, k);
  }

  // ----- Where the pump fails -----

  /** What taking a timeout does to the queues and to the carried variables. */
  lemma TimeoutFrame(s: State)
    requires s.timeouts != [] && Ch.Shape(View(s, s.timeouts[0]))
    ensures s.timeouts[0] in s.slots ==> QueueOf(s, s.timeouts[0]) != []
    ensures var c := s.timeouts[0]; var t := TimeoutTaken(s);
            && t.rdy == s.rdy && t.carried == s.carried
            && t.queues == (if c in s.slots then s.queues[c := s.queues[c][1..]] else s.queues)
            && t.ready == (if c in s.slots then s.ready + [c] else s.ready)
            && t.requests == s.requests
  {
    var c := s.timeouts[0];
    DisarmedView(s, c);
    if c in s.slots {
      CompletedView(Disarmed(s, c).(timeouts := s.timeouts[1..]), c, TimedOut);
    }
  }

  lemma ContentsAfterTimeout(s: State)
    requires s.timeouts != [] && Ch.Shape(View(s, s.timeouts[0]))
    requires s.timeouts[0] in s.slots ==> QueueOf(s, s.timeouts[0]) != []
    ensures s.carried != Live(s.timeouts[0]) ==> Contents(TimeoutTaken(s)) == Contents(s)
    ensures s.carried == Live(s.timeouts[0]) ==>
              Contents(TimeoutTaken(s)) == QueueOf(TimeoutTaken(s), s.timeouts[0])
  {
    TimeoutFrame(s);
  }

  lemma TimeoutCrashesIff(s: State, writeOk: bool)
    requires s.timeouts != [] && Ch.Shape(View(s, s.timeouts[0]))
    ensures var c := s.timeouts[0];
            Crashes(s, OnTimeout(writeOk)) <==>
              && c in s.queues
              && |s.queues[c]| == (if c in s.slots then 1 else 0)
              && s.rdy && s.carried != Live(c) && Contents(s) != []
  {
    TimeoutFrame(s);
    ContentsAfterTimeout(s);
    assert Crashes(s, OnTimeout(writeOk)) <==> TailCrashes(TimeoutTaken(s), s.timeouts[0]);
  }

  /**
   The pump crashes exactly when it handles a timeout of a client whose queue is empty once the
   timed-out request is gone, while the carried rdy flag and another client's carried queue
   still ask for a dispatch. No other branch can crash.
   */
  lemma CrashesIff(s: State, e: Event)
    requires Offered(s, e) && (e.OnTimeout? ==> Ch.Shape(View(s, s.timeouts[0])))
    ensures Crashes(s, e) <==>
              && e.OnTimeout?
              && s.timeouts[0] in s.queues
              && |s.queues[s.timeouts[0]]| == (if s.timeouts[0] in s.slots then 1 else 0)
              && s.rdy && s.carried != Live(s.timeouts[0]) && Contents(s) != []
  {
    match e {
      case OnTimeout(ok) => TimeoutCrashesIff(s, ok);
      case OnRequest(_) =>
      case OnReady(_) => DisarmedView(s, s.ready[0]);
      case _ =>
    }
  }

  lemma TimeoutBlocksIff(s: State, writeOk: bool)
    requires s.timeouts != [] && Ch.Shape(View(s, s.timeouts[0]))
    ensures var c := s.timeouts[0];
            Blocks(s, OnTimeout(writeOk)) <==>
              || (c in s.slots && s.ready != [])
              || (&& !writeOk && s.rdy && (c in s.slots || s.ready != [])
                  && |QueueOf(s, c)| > (if c in s.slots then 1 else 0)
                  && (s.carried == Live(c) || Contents(s) != []))
  {
    TimeoutFrame(s);
    ContentsAfterTimeout(s);
  }

  /**
   The pump waits for itself exactly when it completes a request while a ready token is still
   in the channel: on a failed write, on a timeout of a pending request, or when a timeout and a
   failed write fall into one iteration.
   */
  lemma BlocksIff(s: State, e: Event)
    requires Offered(s, e) && (e.OnTimeout? ==> Ch.Shape(View(s, s.timeouts[0])))
    ensures Blocks(s, e) <==>
      match e
      case OnRequest(ok) =>
        !ok && QueueOf(s, s.requests[0]) != [] && ContextOf(s, s.requests[0]).Idle? && s.ready != []
      case OnReady(ok) =>
        !ok && QueueOf(s, s.ready[0]) != [] && |s.ready| > 1
      case OnTimeout(ok) =>
        var c := s.timeouts[0];
        || (c in s.slots && s.ready != [])
        || (&& !ok && s.rdy && (c in s.slots || s.ready != [])
            && |QueueOf(s, c)| > (if c in s.slots then 1 else 0)
            && (s.carried == Live(c) || Contents(s) != []))
      case _ => false
  {
    match e
    case OnRequest(_) =>
    case OnReady(_) => DisarmedView(s, s.ready[0]);
    case OnTimeout(ok) => TimeoutBlocksIff(s, ok);
    case _ =>
  }

  const PEER_A := ClientId("A")
  const PEER_B := ClientId("B")
  const FIRST := Bundle("1", Request("Reset", 0))
  const SECOND := Bundle("2", Request("ClearCache", 0))

  /** Two requests queued for one client. */
  lemma TwoQueuedRun() returns (es: seq<Event>)
    ensures Runs(Fresh(0, true), es)
    ensures var s := After(Fresh(0, true), es);
            && PEER_A in s.queues && s.queues[PEER_A] == [FIRST, SECOND] && PEER_A !in s.slots
            && s.requests == [PEER_A, PEER_A] && s.ready == [] && s.timed
            && ContextOf(s, PEER_A).Idle? && HistoryOf(s, PEER_A) == History([FIRST, SECOND], [], [])
  {
    var s0 := Fresh(0, true);
    es := [];
    Extend(s0, es, Connect(PEER_A));
    es := es + [Connect(PEER_A)];
    Extend(s0, es, Submit(PEER_A, FIRST));
    es := es + [Submit(PEER_A, FIRST)];
    assert HistoryOf(After(s0, es), PEER_A) == History([FIRST], [], []);
    Extend(s0, es, Submit(PEER_A, SECOND));
    es := es + [Submit(PEER_A, SECOND)];
  }

  /** The first of the two could not be written. */
  lemma FailedFirstRun() returns (es: seq<Event>)
    ensures Runs(Fresh(0, true), es)
    ensures var s := After(Fresh(0, true), es);
            && PEER_A in s.queues && s.queues[PEER_A] == [SECOND] && PEER_A !in s.slots
            && s.requests == [PEER_A] && s.ready == [PEER_A] && s.timed
            && ContextOf(s, PEER_A).Idle?
            && HistoryOf(s, PEER_A)
               == History([FIRST, SECOND], [Done(FIRST, WriteFailed)], [Sent(0, FIRST)])
  {
    es := TwoQueuedRun();
    Extend(Fresh(0, true), es, OnRequest(false));
    es := es + [OnRequest(false)];
  }

  /** A second failing write, signalled before the ready token was taken, stops the pump for good. */
  lemma PumpCanBlock() returns (es: seq<Event>)
    ensures Runs(Fresh(0, true), es)
    ensures Offered(After(Fresh(0, true), es), OnRequest(false))
    ensures Blocks(After(Fresh(0, true), es), OnRequest(false))
  {
    es := FailedFirstRun();
  }

  /** In the same place a working write sends the second request twice. */
  lemma PumpCanWriteTwice() returns (es: seq<Event>)
    ensures Runs(Fresh(0, true), es)
    ensures HistoryOf(After(Fresh(0, true), es), PEER_A).writes
         == [Sent(0, FIRST), Sent(1, SECOND), Sent(1, SECOND)]
  {
    var s0 := Fresh(0, true);
    es := FailedFirstRun();
    Extend(s0, es, OnRequest(true));
    es := es + [OnRequest(true)];
    var s := After(s0, es);
    assert s.queues[PEER_A] == [SECOND] && s.ready == [PEER_A];
    assert HistoryOf(s, PEER_A).writes == [Sent(0, FIRST), Sent(1, SECOND)];
    Extend(s0, es, OnReady(true));
    es := es + [OnReady(true)];
  }

  lemma UntimedSentRun() returns (es: seq<Event>)
    ensures Runs(Fresh(0, false), es)
    ensures var s := After(Fresh(0, false), es);
            && PEER_A in s.queues && s.queues[PEER_A] == [FIRST] && SlotOf(s, PEER_A) == Some(FIRST)
            && s.requests == [] && s.capacity == 0 && !s.timed && ContextOf(s, PEER_A).Idle?
            && HistoryOf(s, PEER_A) == History([FIRST], [], [Sent(0, FIRST)])
  {
    var s0 := Fresh(0, false);
    es := [];
    Extend(s0, es, Connect(PEER_A));
    es := es + [Connect(PEER_A)];
    Extend(s0, es, Submit(PEER_A, FIRST));
    es := es + [Submit(PEER_A, FIRST)];
    assert HistoryOf(After(s0, es), PEER_A) == History([FIRST], [], []);
    Extend(s0, es, OnRequest(true));
    es := es + [OnRequest(true)];
  }

  /** With a timeout of zero no context is ever armed: a second request alone repeats the first. */
  lemma UntimedWritesTwice() returns (es: seq<Event>)
    ensures Runs(Fresh(0, false), es)
    ensures HistoryOf(After(Fresh(0, false), es), PEER_A)
         == History([FIRST, SECOND], [], [Sent(0, FIRST), Sent(0, FIRST)])
  {
    var s0 := Fresh(0, false);
    es := UntimedSentRun();
    Extend(s0, es, Submit(PEER_A, SECOND));
    es := es + [Submit(PEER_A, SECOND)];
    var s := After(s0, es);
    assert s.queues[PEER_A] == [FIRST, SECOND] && s.requests == [PEER_A];
    assert HistoryOf(s, PEER_A) == History([FIRST, SECOND], [], [Sent(0, FIRST)]);
    Extend(s0, es, OnRequest(true));
    es := es + [OnRequest(true)];
  }

  /** What the runs below keep about B: its only request is on the wire, with timer 0 waiting. */
  predicate BWaits(s: State) {
    && PEER_B in s.queues && s.queues[PEER_B] == [SECOND] && SlotOf(s, PEER_B) == Some(SECOND)
    && ContextOf(s, PEER_B) == Armed(0) && 0 in s.timers && s.timers[0] == PEER_B
    && s.timeouts == [] && s.ready == [] && s.capacity == 0 && s.timed && s.nextTimer > 0
  }

  lemma BSentRun() returns (es: seq<Event>)
    ensures Runs(Fresh(0, true), es)
    ensures var s := After(Fresh(0, true), es);
            && BWaits(s) && s.requests == [] && s.timers.Keys == {0}
            && PEER_A !in s.queues && PEER_A !in s.slots && ContextOf(s, PEER_A).Idle?
  {
    var s0 := Fresh(0, true);
    es := [];
    Extend(s0, es, Connect(PEER_B));
    es := es + [Connect(PEER_B)];
    Extend(s0, es, Submit(PEER_B, SECOND));
    es := es + [Submit(PEER_B, SECOND)];
    Extend(s0, es, OnRequest(true));
    es := es + [OnRequest(true)];
  }

  lemma AQueuedRun() returns (es: seq<Event>)
    ensures Runs(Fresh(0, true), es)
    ensures var s := After(Fresh(0, true), es);
            && BWaits(s) && s.requests == [PEER_A]
            && PEER_A in s.queues && s.queues[PEER_A] == [FIRST]
            && PEER_A !in s.slots && ContextOf(s, PEER_A).Idle?
  {
    var s0 := Fresh(0, true);
    es := BSentRun();
    Extend(s0, es, Connect(PEER_A));
    es := es + [Connect(PEER_A)];
    Extend(s0, es, Submit(PEER_A, FIRST));
    es := es + [Submit(PEER_A, FIRST)];
  }

  lemma BothSentRun() returns (es: seq<Event>)
    ensures Runs(Fresh(0, true), es)
    ensures var s := After(Fresh(0, true), es);
            && BWaits(s) && s.requests == []
            && PEER_A in s.queues && s.queues[PEER_A] == [FIRST] && SlotOf(s, PEER_A) == Some(FIRST)
            && ContextOf(s, PEER_A).Armed? && ContextOf(s, PEER_A).timer != 0
  {
    es := AQueuedRun();
    Extend(Fresh(0, true), es, OnRequest(true));
    es := es + [OnRequest(true)];
  }

  lemma AAnsweredRun() returns (es: seq<Event>)
    ensures Runs(Fresh(0, true), es)
    ensures var s := After(Fresh(0, true), es);
            && BWaits(s.(ready := [])) && s.ready == [PEER_A]
            && PEER_A in s.queues && s.queues[PEER_A] == []
            && ContextOf(s, PEER_A).Armed? && ContextOf(s, PEER_A).timer != 0
  {
    es := BothSentRun();
    Extend(Fresh(0, true), es, Answer(PEER_A, "1", false));
    es := es + [Answer(PEER_A, "1", false)];
  }

  /** A was answered: it is idle, its empty queue is carried and rdy is still set. */
  lemma IdleCarriedRun() returns (es: seq<Event>)
    ensures Runs(Fresh(0, true), es)
    ensures var s := After(Fresh(0, true), es);
            && BWaits(s) && s.rdy && s.carried == Live(PEER_A)
            && PEER_A in s.queues && s.queues[PEER_A] == []
  {
    es := AAnsweredRun();
    Extend(Fresh(0, true), es, OnReady(true));
    es := es + [OnReady(true)];
  }

  lemma TimeoutMeetsRequestRun() returns (es: seq<Event>)
    ensures Runs(Fresh(0, true), es)
    ensures var s := After(Fresh(0, true), es);
            && s.timeouts == [PEER_B] && s.rdy && s.carried == Live(PEER_A)
            && QueueOf(s, PEER_A) == [SECOND]
            && PEER_B in s.queues && s.queues[PEER_B] == [SECOND] && SlotOf(s, PEER_B) == Some(SECOND)
  {
    var s0 := Fresh(0, true);
    es := IdleCarriedRun();
    Extend(s0, es, Submit(PEER_A, SECOND));
    es := es + [Submit(PEER_A, SECOND)];
    Extend(s0, es, Expire(0));
    es := es + [Expire(0)];
  }

  /** A's next request meets B's timeout: the pump dereferences B's empty queue. */
  lemma PumpCanCrash() returns (es: seq<Event>)
    ensures Runs(Fresh(0, true), es)
    ensures Offered(After(Fresh(0, true), es), OnTimeout(true))
    ensures Crashes(After(Fresh(0, true), es), OnTimeout(true))
  {
    es := TimeoutMeetsRequestRun();
    CrashesIff(After(Fresh(0, true), es), OnTimeout(true));
  }

  // ----- No lost wakeup -----

  /** If c has something to send, the pump has been told so. */
  predicate Awake(s: State, c: ClientId) {
    QueueOf(s, c) != [] && c !in s.slots ==>
      c in s.ready || (c in s.requests && ContextOf(s, c).Idle?)
  }

  /** An armed context of a connected client has something that will disarm it. */
  predicate Guarded(s: State, c: ClientId) {
    c in s.queues && ContextOf(s, c).Armed? ==> c in s.slots || c in s.ready
  }

  /** A reconnecting client finds no armed context: the pump has processed its removal. */
  predicate Orderly(s: State, e: Event) {
    e.Connect? && e.client !in s.queues ==> ContextOf(s, e.client).Idle?
  }

  ghost predicate OrderlyRun(s: State, es: seq<Event>)
    requires Runs(s, es)
    decreases |es|
  {
    es == [] || (Orderly(s, es[0]) && OrderlyRun(Step(s, es[0]), es[1..]))
  }

  /** Tokens and signals of a client stay in the channels while others are served. */
  predicate Kept(s: State, t: State, d: ClientId) {
    (d in s.ready ==> d in t.ready) && (d in s.requests ==> d in t.requests)
  }

  lemma TailKeeps(s: State, c: ClientId, writeOk: bool, d: ClientId)
    requires !TailCrashes(s, c)
    ensures Kept(s, Tail(s, c, writeOk), d)
  {
  }

  lemma InTail(q: seq<ClientId>, d: ClientId)
    requires q != [] && d in q && d != q[0]
    ensures d in q[1..]
  {
    var i :| 0 <= i < |q| && q[i] == d;
    assert q[1..][i - 1] == d;
  }

  lemma RequestKeeps(s: State, writeOk: bool, d: ClientId)
    requires Enabled(s, OnRequest(writeOk)) && d != s.requests[0]
    ensures Kept(s, Step(s, OnRequest(writeOk)), d)
  {
    if d in s.requests { InTail(s.requests, d); }
    if s.requests[0] in s.queues {
      assert Kept(s, RequestSeen(s), d);
      TailKeeps(RequestSeen(s), s.requests[0], writeOk, d);
    } else {
      assert ClientForgotten(s).requests == s.requests[1..] && ClientForgotten(s).ready == s.ready;
    }
  }

  lemma ReadyKeeps(s: State, writeOk: bool, d: ClientId)
    requires Enabled(s, OnReady(writeOk)) && d != s.ready[0]
    ensures Kept(s, Step(s, OnReady(writeOk)), d)
  {
    if d in s.ready { InTail(s.ready, d); }
    assert ReadyTaken(s).ready == s.ready[1..] && ReadyTaken(s).requests == s.requests;
    TailKeeps(ReadyTaken(s), s.ready[0], writeOk, d);
  }

  lemma TimeoutTakenKeeps(s: State, d: ClientId)
    requires s.timeouts != [] && (s.timeouts[0] in s.slots ==> QueueOf(s, s.timeouts[0]) != [])
    ensures Kept(s, TimeoutTaken(s), d)
  {
    var t := Disarmed(s, s.timeouts[0]);
    assert t.ready == s.ready && t.requests == s.requests;
  }

  lemma TimeoutKeeps(s: State, writeOk: bool, d: ClientId)
    requires Enabled(s, OnTimeout(writeOk))
    ensures Kept(s, Step(s, OnTimeout(writeOk)), d)
  {
    TimeoutTakenKeeps(s, d);
    TailKeeps(TimeoutTaken(s), s.timeouts[0], writeOk, d);
  }

  lemma CallerKeeps(s: State, e: Event, d: ClientId)
    requires Enabled(s, e) && !e.OnRequest? && !e.OnReady? && !e.OnTimeout?
    ensures Kept(s, Step(s, e), d)
  {
  }

  lemma OthersStayAwake(s: State, e: Event, d: ClientId)
    requires Enabled(s, e) && Target(s, e) != Some(d) && Awake(s, d) && Guarded(s, d)
    ensures Awake(Step(s, e), d) && Guarded(Step(s, e), d)
  {
    StepIsolates(s, e, d);
    match e {
      case OnRequest(ok) => RequestKeeps(s, ok, d);
      case OnReady(ok) => ReadyKeeps(s, ok, d);
      case OnTimeout(ok) => TimeoutKeeps(s, ok, d);
      case _ => CallerKeeps(s, e, d);
    }
    var t := Step(s, e);
    assert SlotOf(t, d) == View(t, d).pending == SlotOf(s, d);
    assert QueueOf(t, d) == View(t, d).queue == QueueOf(s, d);
  }

  /** A dispatch leaves the client pending, or with a ready token when the write failed. */
  lemma DispatchWakes(s: State, c: ClientId, writeOk: bool)
    requires Ch.Shape(View(s, c)) && QueueOf(s, c) != []
    ensures var t := Dispatched(s, c, writeOk); c in t.slots || c in t.ready
  {
    HeadWrittenView(s, c);
    assert c in HeadWritten(s, c).slots;
  }

  /** After the tail of an iteration for c, which starts with c's context disarmed. */
  lemma TailWakes(s: State, c: ClientId, writeOk: bool)
    requires Ch.Shape(View(s, c)) && !TailCrashes(s, c)
    requires ContextOf(s, c).Idle?
    requires WillDispatch(s) || Awake(s, c)
    ensures Awake(Tail(s, c, writeOk), c) && Guarded(Tail(s, c, writeOk), c)
  {
    if WillDispatch(s) {
      if c in s.queues { DispatchWakes(s, c, writeOk); }
    }
  }

  lemma SignalIgnored(s: State, writeOk: bool)
    requires Enabled(s, OnRequest(writeOk)) && ContextOf(s, s.requests[0]).Armed?
    requires s.requests[0] in s.queues && Guarded(s, s.requests[0])
    ensures var t := Step(s, OnRequest(writeOk)); Awake(t, s.requests[0]) && Guarded(t, s.requests[0])
  {
    assert Step(s, OnRequest(writeOk)) == RequestSeen(s);
  }

  lemma RequestWakes(s: State, writeOk: bool)
    requires Enabled(s, OnRequest(writeOk))
    requires Ch.Shape(View(s, s.requests[0])) && Guarded(s, s.requests[0])
    ensures var t := Step(s, OnRequest(writeOk)); Awake(t, s.requests[0]) && Guarded(t, s.requests[0])
  {
    var c := s.requests[0];
    if c !in s.queues {
      DisarmedView(s, c);
      assert c !in ClientForgotten(s).queues;
    } else if ContextOf(s, c).Armed? {
      SignalIgnored(s, writeOk);
    } else {
      assert View(RequestSeen(s), c) == View(s, c);
      TailWakes(RequestSeen(s), c, writeOk);
    }
  }

  lemma ReadyWakes(s: State, writeOk: bool)
    requires Enabled(s, OnReady(writeOk)) && Ch.Shape(View(s, s.ready[0]))
    ensures var t := Step(s, OnReady(writeOk)); Awake(t, s.ready[0]) && Guarded(t, s.ready[0])
  {
    var c := s.ready[0];
    DisarmedView(s, c);
    assert View(ReadyTaken(s), c) == View(s, c);
    TailWakes(ReadyTaken(s), c, writeOk);
  }

  lemma TimeoutDisarms(s: State)
    requires s.timeouts != [] && Ch.Shape(View(s, s.timeouts[0]))
    requires s.timeouts[0] in s.slots ==> QueueOf(s, s.timeouts[0]) != []
    ensures ContextOf(TimeoutTaken(s), s.timeouts[0]).Idle?
    ensures s.timeouts[0] !in s.slots ==> s.timeouts[0] !in TimeoutTaken(s).slots
  {
    DisarmedView(s, s.timeouts[0]);
  }

  lemma TimeoutWakes(s: State, writeOk: bool)
    requires Enabled(s, OnTimeout(writeOk))
    requires Ch.Inv(View(s, s.timeouts[0])) && Awake(s, s.timeouts[0])
    ensures var t := Step(s, OnTimeout(writeOk)); Awake(t, s.timeouts[0]) && Guarded(t, s.timeouts[0])
  {
    var c := s.timeouts[0];
    TimeoutFrame(s);
    TimeoutTakenMatches(s);
    TimeoutDisarms(s);
    assert Awake(TimeoutTaken(s), c);
    TailWakes(TimeoutTaken(s), c, writeOk);
  }

  lemma CallerWakes(s: State, e: Event, c: ClientId)
    requires Enabled(s, e) && Target(s, e) == Some(c) && Orderly(s, e)
    requires e.Connect? || e.Disconnect? || e.Submit? || e.Answer?
    requires Ch.Shape(View(s, c)) && Awake(s, c) && Guarded(s, c)
    ensures Awake(Step(s, e), c) && Guarded(Step(s, e), c)
  {
    match e
    case Answer(_, id, rejected) =>
      if Expected(s, c, id) { CompletedView(s, c, Verdict(s.slots[c], rejected)); }
    case Submit(_, _) =>
    case Connect(_) =>
    case Disconnect(_) =>
  }

  lemma AwakeStep(s: State, e: Event, c: ClientId)
    requires Enabled(s, e) && Orderly(s, e)
    requires Ch.Inv(View(s, c)) && Awake(s, c) && Guarded(s, c)
    ensures Awake(Step(s, e), c) && Guarded(Step(s, e), c)
  {
    if Target(s, e) != Some(c) {
      OthersStayAwake(s, e, c);
    } else {
      match e {
        case OnRequest(ok) => RequestWakes(s, ok);
        case OnReady(ok) => ReadyWakes(s, ok);
        case OnTimeout(ok) => TimeoutWakes(s, ok);
        case _ => CallerWakes(s, e, c);
      }
    }
  }

  lemma {:induction false} AwakeRun(s: State, es: seq<Event>, c: ClientId)
    requires Runs(s, es) && OrderlyRun(s, es)
    requires Ch.Inv(View(s, c)) && Awake(s, c) && Guarded(s, c)
    ensures Awake(After(s, es), c) && Guarded(After(s, es), c)
    decreases |es|
  {
    if es != [] {
      AwakeStep(s, es[0], c);
      StepRefines(s, es[0], c);
      AwakeRun(Step(s, es[0]), es[1..], c);
    }
  }

  /**
   In every run where ids reconnect in order: a client with queued requests and nothing pending
   has a ready token in the channel, or a request signal while its context is idle.
   */
  lemma NoLostWakeup(capacity: nat, timed: bool, es: seq<Event>, c: ClientId)
    requires Runs(Fresh(capacity, timed), es) && OrderlyRun(Fresh(capacity, timed), es)
    ensures Awake(After(Fresh(capacity, timed), es), c)
  {
    AwakeRun(Fresh(capacity, timed), es, c);
  }

  lemma DispatchPends(s: State, c: ClientId)
    requires Ch.Shape(View(s, c)) && QueueOf(s, c) != []
    ensures SlotOf(Dispatched(s, c, true), c) == Some(QueueOf(s, c)[0])
  {
    HeadWrittenView(s, c);
  }

  /** What a token is for: taking it puts the head of the queue on the wire. */
  lemma TokenDispatches(s: State)
    requires s.ready != [] && Ch.Shape(View(s, s.ready[0])) && QueueOf(s, s.ready[0]) != []
    ensures Enabled(s, OnReady(true))
    ensures SlotOf(Step(s, OnReady(true)), s.ready[0]) == Some(QueueOf(s, s.ready[0])[0])
  {
    DisarmedView(s, s.ready[0]);
    assert View(ReadyTaken(s), s.ready[0]) == View(s, s.ready[0]);
    DispatchPends(ReadyTaken(s), s.ready[0]);
  }

  /** The same for a request signal that finds the context idle. */
  lemma SignalDispatches(s: State)
    requires s.requests != [] && Ch.Shape(View(s, s.requests[0])) && QueueOf(s, s.requests[0]) != []
    requires ContextOf(s, s.requests[0]).Idle?
    ensures Enabled(s, OnRequest(true))
    ensures SlotOf(Step(s, OnRequest(true)), s.requests[0]) == Some(QueueOf(s, s.requests[0])[0])
  {
    assert View(RequestSeen(s), s.requests[0]) == View(s, s.requests[0]);
    DispatchPends(RequestSeen(s), s.requests[0]);
  }

  /** A reconnect and a first request keep Awake except when a context was left armed without a token. */
  lemma ReconnectKeepsAwakeIff(s: State, c: ClientId, b: Bundle)
    requires c !in s.queues && c !in s.slots && b.id != ""
    requires Accepts(Step(s, Connect(c)), c)
    ensures Awake(Step(Step(s, Connect(c)), Submit(c, b)), c) <==> ContextOf(s, c).Idle? || c in s.ready
  {
    var t := Step(Step(s, Connect(c)), Submit(c, b));
    assert QueueOf(t, c) == [b] && t.requests == s.requests + [c];
  }

  /** Nothing is left that could make the pump move: only callers and peers can act. */
  predicate Quiet(s: State) {
    s.requests == [] && s.ready == [] && s.timeouts == [] && s.timers.Keys == {}
  }

  lemma EarlyReconnectRun() returns (es: seq<Event>)
    ensures Runs(Fresh(0, true), es)
    ensures var s := After(Fresh(0, true), es);
            && !Awake(s, PEER_B) && s.requests == [PEER_B, PEER_B] && s.ready == [] && s.timeouts == []
            && PEER_B in s.queues && s.queues[PEER_B] == [FIRST] && PEER_B !in s.slots
            && ContextOf(s, PEER_B) == Armed(0) && s.timers.Keys == {0} && s.timers[0] == PEER_B
  {
    var s0 := Fresh(0, true);
    es := BSentRun();
    Extend(s0, es, Disconnect(PEER_B));
    es := es + [Disconnect(PEER_B)];
    var s := After(s0, es);
    assert PEER_B !in s.queues && PEER_B !in s.slots && s.ready == [];
    Extend(s0, es, Connect(PEER_B));
    es := es + [Connect(PEER_B)];
    Extend(s0, es, Submit(PEER_B, FIRST));
    es := es + [Submit(PEER_B, FIRST)];
  }

  lemma SignalsIgnoredRun() returns (es: seq<Event>)
    ensures Runs(Fresh(0, true), es)
    ensures var s := After(Fresh(0, true), es);
            && s.requests == [] && s.ready == [] && s.timeouts == [] && !s.rdy
            && PEER_B in s.queues && s.queues[PEER_B] == [FIRST] && PEER_B !in s.slots
            && s.timers.Keys == {0} && s.timers[0] == PEER_B && ContextOf(s, PEER_B) == Armed(0)
  {
    var s0 := Fresh(0, true);
    es := EarlyReconnectRun();
    Extend(s0, es, OnRequest(true));
    es := es + [OnRequest(true)];
    assert After(s0, es).requests == [PEER_B];
    Extend(s0, es, OnRequest(true));
    es := es + [OnRequest(true)];
  }

  /**
   B reconnects before the pump has noticed that it left. Both its signals find the old context
   armed, the old timer expires with nothing pending, and the accepted request stays where it is.
   */
  lemma EarlyReconnectSleeps() returns (es: seq<Event>)
    ensures Runs(Fresh(0, true), es)
    ensures var s := After(Fresh(0, true), es);
            QueueOf(s, PEER_B) == [FIRST] && PEER_B !in s.slots && Quiet(s)
  {
    var s0 := Fresh(0, true);
    es := SignalsIgnoredRun();
    Extend(s0, es, Expire(0));
    es := es + [Expire(0)];
    var s := After(s0, es);
    assert s.timeouts == [PEER_B] && !s.rdy && s.timers.Keys == {};
    Extend(s0, es, OnTimeout(true));
    es := es + [OnTimeout(true)];
  }

  // ----- Timers -----

  /** A waiting timer belongs to the current context of its client. */
  ghost predicate TimersCurrent(s: State) {
    forall k :: k in s.timers ==> k < s.nextTimer && ContextOf(s, s.timers[k]) == Armed(k)
  }

  lemma DisarmedTimers(s: State, c: ClientId)
    requires TimersCurrent(s)
    ensures TimersCurrent(Disarmed(s, c))
  {
  }

  lemma WriteDoneTimers(s: State, c: ClientId)
    requires TimersCurrent(s) && ContextOf(s, c).Idle? && QueueOf(s, c) != []
    ensures TimersCurrent(WriteDone(s, c))
  {
    var w := HeadWritten(s, c);
    assert w.timers == s.timers && w.contexts == s.contexts && w.nextTimer == s.nextTimer;
  }

  lemma WriteRefusedTimers(s: State, c: ClientId)
    requires TimersCurrent(s) && ContextOf(s, c).Idle? && QueueOf(s, c) != []
    ensures TimersCurrent(WriteRefused(s, c))
  {
    var t := WriteRefused(s, c);
    assert t.timers == s.timers && t.contexts == s.contexts[c := Idle] && t.nextTimer == s.nextTimer;
  }

  lemma DispatchedTimers(s: State, c: ClientId, writeOk: bool)
    requires TimersCurrent(s) && ContextOf(s, c).Idle? && (c in s.queues ==> s.queues[c] != [])
    ensures TimersCurrent(Dispatched(s, c, writeOk))
  {
    if c in s.queues {
      if writeOk { WriteDoneTimers(s, c); } else { WriteRefusedTimers(s, c); }
    }
  }

  lemma TailTimers(s: State, c: ClientId, writeOk: bool)
    requires TimersCurrent(s) && !TailCrashes(s, c) && (WillDispatch(s) ==> ContextOf(s, c).Idle?)
    ensures TimersCurrent(Tail(s, c, writeOk))
  {
    if WillDispatch(s) {
      DispatchedTimers(s, c, writeOk);
    }
  }

  lemma ForgottenTimers(s: State)
    requires s.requests != [] && TimersCurrent(s)
    ensures TimersCurrent(ClientForgotten(s))
  {
    DisarmedTimers(s, s.requests[0]);
    DisarmedView(s, s.requests[0]);
  }

  lemma RequestTimers(s: State, writeOk: bool)
    requires Enabled(s, OnRequest(writeOk)) && TimersCurrent(s)
    ensures TimersCurrent(Step(s, OnRequest(writeOk)))
  {
    if s.requests[0] in s.queues {
      assert TimersCurrent(RequestSeen(s));
      TailTimers(RequestSeen(s), s.requests[0], writeOk);
    } else {
      ForgottenTimers(s);
    }
  }

  lemma ReadyTimers(s: State, writeOk: bool)
    requires Enabled(s, OnReady(writeOk)) && TimersCurrent(s)
    ensures TimersCurrent(Step(s, OnReady(writeOk)))
  {
    DisarmedTimers(s, s.ready[0]);
    DisarmedView(s, s.ready[0]);
    var t, u := ReadyTaken(s), Disarmed(s, s.ready[0]);
    assert t.contexts == u.contexts && t.timers == u.timers && t.nextTimer == u.nextTimer;
    TailTimers(t, s.ready[0], writeOk);
  }

  lemma TimeoutTakenTimers(s: State)
    requires s.timeouts != [] && TimersCurrent(s)
    requires s.timeouts[0] in s.slots ==> QueueOf(s, s.timeouts[0]) != []
    ensures TimersCurrent(TimeoutTaken(s)) && ContextOf(TimeoutTaken(s), s.timeouts[0]).Idle?
  {
    DisarmedTimers(s, s.timeouts[0]);
    DisarmedView(s, s.timeouts[0]);
    var t, u := TimeoutTaken(s), Disarmed(s, s.timeouts[0]);
    assert t.contexts == u.contexts && t.timers == u.timers && t.nextTimer == u.nextTimer;
  }

  lemma TimeoutTimers(s: State, writeOk: bool)
    requires Enabled(s, OnTimeout(writeOk)) && TimersCurrent(s)
    ensures TimersCurrent(Step(s, OnTimeout(writeOk)))
  {
    TimeoutTakenTimers(s);
    TailTimers(TimeoutTaken(s), s.timeouts[0], writeOk);
  }

  lemma CallerTimers(s: State, e: Event)
    requires Enabled(s, e) && TimersCurrent(s) && !e.OnRequest? && !e.OnReady? && !e.OnTimeout?
    ensures TimersCurrent(Step(s, e))
  {
  }

  lemma {:induction false} TimersRun(s: State, es: seq<Event>)
    requires Runs(s, es) && TimersCurrent(s)
    ensures TimersCurrent(After(s, es))
    decreases |es|
  {
    if es != [] {
      match es[0] {
        case OnRequest(ok) => RequestTimers(s, ok);
        case OnReady(ok) => ReadyTimers(s, ok);
        case OnTimeout(ok) => TimeoutTimers(s, ok);
        case _ => CallerTimers(s, es[0]);
      }
      TimersRun(Step(s, es[0]), es[1..]);
    }
  }

  /** At most one timeout per client runs in the background, and it is that of the last dispatch. */
  lemma OneTimerPerClient(capacity: nat, timed: bool, es: seq<Event>, j: nat, k: nat)
    requires Runs(Fresh(capacity, timed), es)
    ensures var s := After(Fresh(capacity, timed), es);
            && (k in s.timers ==> ContextOf(s, s.timers[k]) == Armed(k))
            && (j in s.timers && k in s.timers && s.timers[j] == s.timers[k] ==> j == k)
  {
    TimersRun(Fresh(capacity, timed), es);
  }

  /** What a step may do to the timers: one removal, or one new timer with a new number. */
  predicate TimersAdvance(s: State, t: State) {
    && t.timed == s.timed && s.nextTimer <= t.nextTimer
    && (forall k :: k in t.timers && k < s.nextTimer ==> k in s.timers)
    && (!s.timed ==> t.timers.Keys <= s.timers.Keys)
  }

  lemma DispatchAdvances(s: State, c: ClientId, writeOk: bool)
    requires c in s.queues ==> s.queues[c] != []
    ensures TimersAdvance(s, Dispatched(s, c, writeOk))
    ensures Dispatched(s, c, writeOk).timeouts == s.timeouts
  {
    if c in s.queues {
      var w := HeadWritten(s, c);
      assert w.timers == s.timers && w.nextTimer == s.nextTimer && w.timed == s.timed;
      if !writeOk {
        var t := WriteRefused(s, c);
        assert t.timers == s.timers && t.nextTimer == s.nextTimer && t.timed == s.timed;
      }
    }
  }

  lemma TailAdvances(s: State, c: ClientId, writeOk: bool)
    requires !TailCrashes(s, c)
    ensures TimersAdvance(s, Tail(s, c, writeOk)) && Tail(s, c, writeOk).timeouts == s.timeouts
  {
    if WillDispatch(s) { DispatchAdvances(s, c, writeOk); }
  }

  lemma DisarmAdvances(s: State, c: ClientId)
    ensures TimersAdvance(s, Disarmed(s, c))
    ensures Disarmed(s, c).timeouts == s.timeouts && Disarmed(s, c).nextTimer == s.nextTimer
  {
  }

  /** Only the timer fields of the second state matter. */
  lemma AdvanceFrame(s: State, t: State, u: State)
    requires TimersAdvance(s, t)
    requires u.timers == t.timers && u.nextTimer == t.nextTimer && u.timed == t.timed
    ensures TimersAdvance(s, u)
  {
  }

  lemma AdvanceTransitive(s: State, t: State, u: State)
    requires TimersAdvance(s, t) && TimersAdvance(t, u)
    ensures TimersAdvance(s, u)
  {
  }

  lemma RequestAdvances(s: State, writeOk: bool)
    requires Enabled(s, OnRequest(writeOk))
    ensures var t := Step(s, OnRequest(writeOk)); TimersAdvance(s, t) && t.timeouts == s.timeouts
  {
    var c := s.requests[0];
    if c in s.queues {
      TailAdvances(RequestSeen(s), c, writeOk);
      AdvanceTransitive(s, RequestSeen(s), Tail(RequestSeen(s), c, writeOk));
    } else {
      DisarmAdvances(s, c);
      AdvanceFrame(s, Disarmed(s, c), ClientForgotten(s));
    }
  }

  lemma ReadyAdvances(s: State, writeOk: bool)
    requires Enabled(s, OnReady(writeOk))
    ensures var t := Step(s, OnReady(writeOk)); TimersAdvance(s, t) && t.timeouts == s.timeouts
  {
    var c, t := s.ready[0], ReadyTaken(s);
    DisarmAdvances(s, c);
    AdvanceFrame(s, Disarmed(s, c), t);
    TailAdvances(t, c, writeOk);
    AdvanceTransitive(s, t, Tail(t, c, writeOk));
  }

  lemma TimeoutTakenAdvances(s: State)
    requires s.timeouts != [] && (s.timeouts[0] in s.slots ==> QueueOf(s, s.timeouts[0]) != [])
    ensures TimersAdvance(s, TimeoutTaken(s))
  {
    var c := s.timeouts[0];
    DisarmAdvances(s, c);
    AdvanceFrame(s, Disarmed(s, c), TimeoutTaken(s));
  }

  lemma TimeoutAdvances(s: State, writeOk: bool)
    requires Enabled(s, OnTimeout(writeOk))
    ensures TimersAdvance(s, Step(s, OnTimeout(writeOk)))
  {
    var t := TimeoutTaken(s);
    TimeoutTakenAdvances(s);
    TailAdvances(t, s.timeouts[0], writeOk);
    AdvanceTransitive(s, t, Tail(t, s.timeouts[0], writeOk));
  }

  lemma StepAdvances(s: State, e: Event)
    requires Enabled(s, e)
    ensures TimersAdvance(s, Step(s, e))
    ensures s.timeouts == [] && !e.Expire? ==> Step(s, e).timeouts == []
  {
    match e
    case OnRequest(ok) => RequestAdvances(s, ok);
    case OnReady(ok) => ReadyAdvances(s, ok);
    case OnTimeout(ok) => TimeoutAdvances(s, ok);
    case _ =>
  }

  /** A timer that expired or was cancelled never comes back. */
  lemma {:induction false} TimerEndsOnce(s: State, es: seq<Event>, k: nat)
    requires Runs(s, es) && k < s.nextTimer && k !in s.timers
    ensures k !in After(s, es).timers
    decreases |es|
  {
    if es != [] {
      StepAdvances(s, es[0]);
      TimerEndsOnce(Step(s, es[0]), es[1..], k);
    }
  }

  /** With a timeout of zero no timeout event ever occurs. */
  lemma {:induction false} UntimedRun(s: State, es: seq<Event>)
    requires Runs(s, es) && !s.timed && s.timers.Keys == {} && s.timeouts == []
    ensures After(s, es).timers.Keys == {} && After(s, es).timeouts == []
    decreases |es|
  {
    if es != [] {
      StepAdvances(s, es[0]);
      UntimedRun(Step(s, es[0]), es[1..]);
    }
  }
}
