/**
 What the server dispatcher still manages to do: after a removal the pump is told about it, and
 from every orderly state a client's queue can be emptied without any failing write.
 */
module ServerProgress {
  import opened Types
  import opened ServerDispatcher
  import Ch = Channel

  // ----- Removals -----

  /** A context left behind by a removed client still has a signal that will forget it. */
  predicate RemovalSignalled(s: State, c: ClientId) {
    c !in s.queues && ContextOf(s, c).Armed? ==> c in s.requests
  }

  lemma OthersStaySignalled(s: State, e: Event, d: ClientId)
    requires Enabled(s, e) && Target(s, e) != Some(d) && RemovalSignalled(s, d)
    ensures RemovalSignalled(Step(s, e), d)
  {
    StepIsolates(s, e, d);
    match e {
      case OnRequest(ok) => RequestKeeps(s, ok, d);
      case OnReady(ok) => ReadyKeeps(s, ok, d);
      case OnTimeout(ok) => TimeoutKeeps(s, ok, d);
      case _ => CallerKeeps(s, e, d);
    }
  }

  /** The tail of an iteration neither adds a queue nor arms a context of a client without one. */
  lemma TailOfRemoved(s: State, c: ClientId, writeOk: bool)
    requires c !in s.queues && ContextOf(s, c).Idle?
    ensures ContextOf(Tail(s, c, writeOk), c).Idle?
  {
  }

  lemma TailKeepsQueue(s: State, c: ClientId, writeOk: bool)
    requires !TailCrashes(s, c)
    ensures Tail(s, c, writeOk).queues.Keys == s.queues.Keys
  {
  }

  lemma RequestSignalled(s: State, writeOk: bool)
    requires Enabled(s, OnRequest(writeOk))
    ensures RemovalSignalled(Step(s, OnRequest(writeOk)), s.requests[0])
  {
    var c := s.requests[0];
    if c in s.queues {
      TailKeepsQueue(RequestSeen(s), c, writeOk);
    } else {
      assert ContextOf(ClientForgotten(s), c).Idle?;
    }
  }

  lemma ReadySignalled(s: State, writeOk: bool)
    requires Enabled(s, OnReady(writeOk))
    ensures RemovalSignalled(Step(s, OnReady(writeOk)), s.ready[0])
  {
    var c := s.ready[0];
    DisarmedView(s, c);
    if c in s.queues {
      TailKeepsQueue(ReadyTaken(s), c, writeOk);
    } else {
      TailOfRemoved(ReadyTaken(s), c, writeOk);
    }
  }

  lemma TimeoutSignalled(s: State, writeOk: bool)
    requires Enabled(s, OnTimeout(writeOk)) && Ch.Shape(View(s, s.timeouts[0]))
    ensures RemovalSignalled(Step(s, OnTimeout(writeOk)), s.timeouts[0])
  {
    var c := s.timeouts[0];
    TimeoutFrame(s);
    TimeoutDisarms(s);
    if c in s.queues {
      TailKeepsQueue(TimeoutTaken(s), c, writeOk);
    } else {
      TailOfRemoved(TimeoutTaken(s), c, writeOk);
    }
  }

  lemma CallerSignalled(s: State, e: Event, c: ClientId)
    requires Enabled(s, e) && Target(s, e) == Some(c) && RemovalSignalled(s, c)
    requires e.Connect? || e.Disconnect? || e.Submit? || e.Answer?
    ensures RemovalSignalled(Step(s, e), c)
  {
  }

  lemma ForgottenFrame(s: State)
    requires s.requests != []
    ensures var t := ClientForgotten(s);
            t.ready == s.ready && t.requests == s.requests[1..] && t.queues == s.queues
  {
  }

  lemma TimeoutKeepsQueues(s: State)
    requires s.timeouts != [] && (s.timeouts[0] in s.slots ==> QueueOf(s, s.timeouts[0]) != [])
    ensures s.timeouts[0] in TimeoutTaken(s).queues <==> s.timeouts[0] in s.queues
  {
    DisarmedView(s, s.timeouts[0]);
  }

  lemma TargetKeepsQueue(s: State, e: Event)
    requires Enabled(s, e) && !e.Connect? && !e.Disconnect? && Target(s, e).Some?
    ensures var c := Target(s, e).value; c in Step(s, e).queues <==> c in s.queues
  {
    match e
    case OnRequest(ok) =>
      if s.requests[0] in s.queues { TailKeepsQueue(RequestSeen(s), s.requests[0], ok); }
      else { ForgottenFrame(s); }
    case OnReady(ok) =>
      DisarmedView(s, s.ready[0]);
      TailKeepsQueue(ReadyTaken(s), s.ready[0], ok);
    case OnTimeout(ok) =>
      TimeoutKeepsQueues(s);
      TailKeepsQueue(TimeoutTaken(s), s.timeouts[0], ok);
    case Submit(_, _) =>
    case Answer(_, _, _) =>
  }

  lemma SignalledStep(s: State, e: Event, c: ClientId)
    requires Enabled(s, e) && Ch.Shape(View(s, c)) && RemovalSignalled(s, c)
    ensures RemovalSignalled(Step(s, e), c)
  {
    if Target(s, e) != Some(c) {
      OthersStaySignalled(s, e, c);
    } else {
      match e
      case OnRequest(ok) => RequestSignalled(s, ok);
      case OnReady(ok) => ReadySignalled(s, ok);
      case OnTimeout(ok) => TimeoutSignalled(s, ok);
      case _ => CallerSignalled(s, e, c);
    }
  }

  lemma {:induction false} SignalledRun(s: State, es: seq<Event>, c: ClientId)
    requires Runs(s, es) && Ch.Inv(View(s, c)) && RemovalSignalled(s, c)
    ensures RemovalSignalled(After(s, es), c)
    decreases |es|
  {
    if es != [] {
      SignalledStep(s, es[0], c);
      StepRefines(s, es[0], c);
      SignalledRun(Step(s, es[0]), es[1..], c);
    }
  }

  /**
   In every run a removed client with an armed context has a signal in the request channel. So a
   reconnect out of order is one that overtakes the signal of its own removal.
   */
  lemma ReconnectIsOrderlyOnceProcessed(capacity: nat, timed: bool, es: seq<Event>, c: ClientId)
    requires Runs(Fresh(capacity, timed), es)
    ensures var s := After(Fresh(capacity, timed), es);
            && RemovalSignalled(s, c)
            && (c !in s.requests ==> Orderly(s, Connect(c)))
  {
    SignalledRun(Fresh(capacity, timed), es, c);
  }

  // ----- Draining -----

  /** Steps with working writes and confirming answers. */
  predicate Draining(e: Event) {
    e == OnReady(true) || e == OnRequest(true) || (e.Answer? && !e.rejected)
  }

  function First(q: seq<ClientId>, c: ClientId): (i: nat)
    requires c in q
    ensures i < |q| && q[i] == c
    ensures i > 0 ==> c in q[1..] && First(q[1..], c) == i - 1
  {
    if q[0] == c then 0 else 1 + First(q[1..], c)
  }

  /** Answer what is pending, else let the pump work towards c's token or signal. */
  function NextDrain(s: State, c: ClientId): (e: Event) {
    if c in s.slots then Answer(c, s.slots[c].id, false)
    else if c in s.ready then OnReady(true)
    else OnRequest(true)
  }

  /** How many tokens or signals are before c's. */
  function Ahead(s: State, c: ClientId): (n: nat) {
    if c in s.slots then 0
    else if c in s.ready then First(s.ready, c)
    else if c in s.requests then First(s.requests, c)
    else 0
  }

  function Waiting(s: State, c: ClientId): (n: nat) {
    if c in s.slots then 0 else 1
  }

  lemma AnswerDrains(s: State, c: ClientId)
    requires Ch.Shape(View(s, c)) && c in s.slots
    ensures Enabled(s, NextDrain(s, c))
    ensures |QueueOf(Step(s, NextDrain(s, c)), c)| < |QueueOf(s, c)|
  {
    CompletedView(s, c, Verdict(s.slots[c], false));
  }

  /** A working write changes neither the queues nor the channels. */
  lemma TailOkFrame(s: State, c: ClientId)
    requires !TailCrashes(s, c)
    ensures var t := Tail(s, c, true);
            t.ready == s.ready && t.requests == s.requests && t.queues == s.queues
  {
  }

  lemma ReadyShrinks(s: State)
    requires s.ready != []
    ensures Enabled(s, OnReady(true))
    ensures var t := Step(s, OnReady(true));
            t.ready == s.ready[1..] && t.requests == s.requests && t.queues == s.queues
  {
    DisarmedView(s, s.ready[0]);
    TailOkFrame(ReadyTaken(s), s.ready[0]);
  }

  lemma RequestsShrink(s: State)
    requires s.requests != []
    ensures Enabled(s, OnRequest(true))
    ensures var t := Step(s, OnRequest(true));
            t.ready == s.ready && t.requests == s.requests[1..] && t.queues == s.queues
  {
    if s.requests[0] in s.queues {
      assert !TailCrashes(RequestSeen(s), s.requests[0]);
      TailOkFrame(RequestSeen(s), s.requests[0]);
    } else {
      ForgottenFrame(s);
    }
  }

  /** The measure went down although the queue did not shrink. */
  predicate Closer(s: State, t: State, c: ClientId) {
    || (c !in s.slots && c in t.slots)
    || (c !in s.slots && c !in t.slots && Ahead(t, c) < Ahead(s, c))
  }

  lemma OthersLeaveSlot(s: State, e: Event, c: ClientId)
    requires Enabled(s, e) && Target(s, e) != Some(c) && c !in s.slots
    ensures c !in Step(s, e).slots
  {
    StepIsolates(s, e, c);
    assert SlotOf(Step(s, e), c) == View(Step(s, e), c).pending == SlotOf(s, c);
  }

  lemma TokenDrains(s: State, c: ClientId)
    requires Ch.Shape(View(s, c)) && QueueOf(s, c) != [] && c !in s.slots && c in s.ready
    ensures Enabled(s, OnReady(true)) && Closer(s, Step(s, OnReady(true)), c)
  {
    ReadyShrinks(s);
    if s.ready[0] == c {
      TokenDispatches(s);
    } else {
      OthersLeaveSlot(s, OnReady(true), c);
    }
  }

  lemma SignalDrains(s: State, c: ClientId)
    requires Ch.Shape(View(s, c)) && QueueOf(s, c) != [] && c !in s.slots
    requires c !in s.ready && c in s.requests && ContextOf(s, c).Idle?
    ensures Enabled(s, OnRequest(true)) && Closer(s, Step(s, OnRequest(true)), c)
  {
    RequestsShrink(s);
    if s.requests[0] == c {
      SignalDispatches(s);
    } else {
      OthersLeaveSlot(s, OnRequest(true), c);
    }
  }

  lemma DrainProgress(s: State, c: ClientId)
    requires Ch.Shape(View(s, c)) && Awake(s, c) && QueueOf(s, c) != []
    ensures var e := NextDrain(s, c);
            && Enabled(s, e) && Draining(e)
            && (|| |QueueOf(Step(s, e), c)| < |QueueOf(s, c)|
                || (QueueOf(Step(s, e), c) == QueueOf(s, c) && Closer(s, Step(s, e), c)))
  {
    if c in s.slots {
      AnswerDrains(s, c);
    } else if c in s.ready {
      ReadyShrinks(s);
      TokenDrains(s, c);
    } else {
      RequestsShrink(s);
      SignalDrains(s, c);
    }
  }

  lemma Prepend(s: State, e: Event, es: seq<Event>)
    requires Enabled(s, e) && Runs(Step(s, e), es)
    ensures Runs(s, [e] + es) && After(s, [e] + es) == After(Step(s, e), es)
  {
    assert ([e] + es)[0] == e && ([e] + es)[1..] == es;
  }

  /** What draining needs of a state. */
  ghost predicate Drainable(s: State, c: ClientId) {
    Ch.Inv(View(s, c)) && Awake(s, c) && Guarded(s, c)
  }

  lemma DrainStep(s: State, c: ClientId)
    requires Drainable(s, c) && QueueOf(s, c) != []
    ensures var e := NextDrain(s, c); Enabled(s, e) && Draining(e) && Drainable(Step(s, e), c)
    ensures var t := Step(s, NextDrain(s, c));
            || |QueueOf(t, c)| < |QueueOf(s, c)|
            || (|QueueOf(t, c)| == |QueueOf(s, c)| && Waiting(t, c) < Waiting(s, c))
            || (|QueueOf(t, c)| == |QueueOf(s, c)| && Waiting(t, c) == Waiting(s, c) && Ahead(t, c) < Ahead(s, c))
  {
    var e := NextDrain(s, c);
    DrainProgress(s, c);
    StepRefines(s, e, c);
    AwakeStep(s, e, c);
  }

  ghost predicate AllDraining(es: seq<Event>) {
    forall i :: 0 <= i < |es| ==> Draining(es[i])
  }

  lemma DrainsFirst(s: State, e: Event, c: ClientId, rest: seq<Event>)
    requires Enabled(s, e) && Draining(e) && Runs(Step(s, e), rest) && AllDraining(rest)
    ensures Runs(s, [e] + rest) && After(s, [e] + rest) == After(Step(s, e), rest) && AllDraining([e] + rest)
  {
    Prepend(s, e, rest);
  }

  lemma {:induction false} DrainsFrom(s: State, c: ClientId, q: nat, w: nat, a: nat) returns (es: seq<Event>)
    requires Drainable(s, c) && q == |QueueOf(s, c)| && w == Waiting(s, c) && a == Ahead(s, c)
    ensures Runs(s, es) && QueueOf(After(s, es), c) == [] && AllDraining(es)
    decreases q, w, a
  {
    es := [];
    if q > 0 {
      var e := NextDrain(s, c);
      DrainStep(s, c);
      var t := Step(s, e);
      var rest := DrainsFrom(t, c, |QueueOf(t, c)|, Waiting(t, c), Ahead(t, c));
      DrainsFirst(s, e, c, rest);
      es := [e] + rest;
    }
  }

  /**
   From every state of every orderly run, working writes and confirming answers can empty any
   given client's queue, whatever the other clients have in the channels.
   */
  lemma Drains(capacity: nat, timed: bool, es: seq<Event>, c: ClientId) returns (more: seq<Event>)
    requires Runs(Fresh(capacity, timed), es) && OrderlyRun(Fresh(capacity, timed), es)
    ensures var s := After(Fresh(capacity, timed), es);
            Runs(s, more) && QueueOf(After(s, more), c) == []
    ensures forall i :: 0 <= i < |more| ==> Draining(more[i])
  {
    assert View(Fresh(capacity, timed), c) == Ch.EMPTY;
    RunRefinesFrom(Fresh(capacity, timed), es, c);
    AwakeRun(Fresh(capacity, timed), es, c);
    var s := After(Fresh(capacity, timed), es);
    more := DrainsFrom(s, c, |QueueOf(s, c)|, Waiting(s, c), Ahead(s, c));
  }
}
