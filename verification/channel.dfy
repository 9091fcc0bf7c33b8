/**
 The vocabulary shared by both dispatchers: what is queued, what becomes of it, and what is
 logged when a frame is handed to the websocket.
 */
module Types {
  datatype Option<+T> = None | Some(value: T)

  /** The identity of a connected peer: the last element of the path it connected to. */
  datatype ClientId = ClientId(name: string)

  /** A request payload: the name of its feature and an opaque value. */
  datatype Request = Request(feature: string, body: nat)

  /** A queued CALL: its unique id and its payload. */
  datatype Bundle = Bundle(id: string, request: Request)

  /**
   How an accepted request ends. The first four are the ways a written request finishes; the
   last two record what a disconnect or a stop throws away: Dropped was already written and
   unanswered, Unsent never left the queue.
   */
  datatype Outcome =
    | Confirmed(feature: string)
    | Rejected
    | TimedOut
    | WriteFailed
    | Dropped
    | Unsent

  datatype Done = Done(bundle: Bundle, outcome: Outcome)

  /** One write attempt; index is the position of the request among the accepted ones. */
  datatype Sent = Sent(index: nat, bundle: Bundle)

  /** How an answer of the peer ends request b: its confirmation is decoded as b's feature. */
  function Verdict(b: Bundle, rejected: bool): (o: Outcome) {
    if rejected then Rejected else Confirmed(b.request.feature)
  }

  /** A way for a written request to end; a confirmation has the type of the request it answers. */
  predicate Fits(o: Outcome, b: Bundle) {
    !o.Dropped? && !o.Unsent? && (o.Confirmed? ==> o.feature == b.request.feature)
  }
}

/**
 The simple machine that both dispatchers are proved to implement for each peer: a FIFO queue
 with at most one outstanding request. The rule is "Synchronicity", section 4.1.1 of the
 OCPP-J 1.6 specification.
 */
module Channel {
  import opened Types

  datatype Channel = Channel(
    queue: seq<Bundle>,
    pending: Option<Bundle>,
    accepted: seq<Bundle>,
    finished: seq<Done>,
    writes: seq<Sent>)

  datatype Op =
    | Accept(bundle: Bundle)
    | Send
    | Resend
    | Finish(outcome: Outcome)
    | Discard

  const EMPTY := Channel([], None, [], [], [])

  predicate Can(ch: Channel, op: Op) {
    match op
    case Accept(b) => b.id != ""
    case Send => ch.queue != [] && ch.pending.None?
    case Resend => ch.queue != [] && ch.pending.Some?
    case Finish(o) => ch.queue != [] && ch.pending.Some? && Fits(o, ch.queue[0])
    case Discard => true
  }

  function Bundles(done: seq<Done>): (r: seq<Bundle>)
    ensures |r| == |done|
  {
    if done == [] then [] else Bundles(done[..|done| - 1]) + [done[|done| - 1].bundle]
  }

  lemma {:induction false} BundlesAt(done: seq<Done>)
    ensures forall i :: 0 <= i < |done| ==> Bundles(done)[i] == done[i].bundle
  {
    if done != [] {
      BundlesAt(done[..|done| - 1]);
    }
  }

  lemma BundlesAppend(a: seq<Done>, b: seq<Done>)
    ensures Bundles(a + b) == Bundles(a) + Bundles(b)
  {
    BundlesAt(a);
    BundlesAt(b);
    BundlesAt(a + b);
  }

  /** What a discard records: the outstanding head as Dropped, everything else as Unsent. */
  function Discarded(queue: seq<Bundle>, pending: Option<Bundle>): (r: seq<Done>)
    ensures |r| == |queue|
    ensures Bundles(r) == queue
    ensures forall i :: 0 <= i < |r| ==>
      r[i] == Done(queue[i], if i == 0 && pending.Some? then Dropped else Unsent)
  {
    var r := seq(|queue|, i requires 0 <= i < |queue| =>
      Done(queue[i], if i == 0 && pending.Some? then Dropped else Unsent));
    BundlesAt(r);
    assert Bundles(r) == queue;
    r
  }

  function Apply(ch: Channel, op: Op): (r: Channel)
    requires Can(ch, op)
  {
    match op
    case Accept(b) => ch.(queue := ch.queue + [b], accepted := ch.accepted + [b])
    case Send =>
      ch.(pending := Some(ch.queue[0]), writes := ch.writes + [Sent(|ch.finished|, ch.queue[0])])
    case Resend =>
      ch.(writes := ch.writes + [Sent(|ch.finished|, ch.queue[0])])
    case Finish(o) =>
      ch.(queue := ch.queue[1..], pending := None, finished := ch.finished + [Done(ch.queue[0], o)])
    case Discard =>
      ch.(queue := [], pending := None, finished := ch.finished + Discarded(ch.queue, ch.pending))
  }

  ghost predicate Valid(ch: Channel, ops: seq<Op>)
    decreases |ops|
  {
    ops == [] || (Can(ch, ops[0]) && Valid(Apply(ch, ops[0]), ops[1..]))
  }

  ghost function After(ch: Channel, ops: seq<Op>): (r: Channel)
    requires Valid(ch, ops)
    decreases |ops|
  {
    if ops == [] then ch else After(Apply(ch, ops[0]), ops[1..])
  }

  lemma {:induction false} RunsCompose(ch: Channel, a: seq<Op>, b: seq<Op>)
    requires Valid(ch, a) && Valid(After(ch, a), b)
    ensures Valid(ch, a + b) && After(ch, a + b) == After(After(ch, a), b)
    decreases |a|
  {
    if a == [] {
      assert a + b == b;
    } else {
      RunsCompose(Apply(ch, a[0]), a[1..], b);
      assert (a + b)[1..] == a[1..] + b;
    }
  }

  lemma OneOp(ch: Channel, op: Op)
    requires Can(ch, op)
    ensures Valid(ch, [op]) && After(ch, [op]) == Apply(ch, op)
  {
    assert [op][1..] == [];
  }

  lemma TwoOps(ch: Channel, a: Op, b: Op)
    requires Can(ch, a) && Can(Apply(ch, a), b)
    ensures Valid(ch, [a, b]) && After(ch, [a, b]) == Apply(Apply(ch, a), b)
  {
    OneOp(ch, a);
    OneOp(Apply(ch, a), b);
    RunsCompose(ch, [a], [b]);
    assert [a] + [b] == [a, b];
  }

  // ----- Reading the history -----

  /** The write log with adjacent repetitions of the same entry removed. */
  function Collapse(w: seq<Sent>): (r: seq<Sent>) {
    if |w| <= 1 then w
    else if w[|w| - 1] == w[|w| - 2] then Collapse(w[..|w| - 1])
    else Collapse(w[..|w| - 1]) + [w[|w| - 1]]
  }

  lemma {:induction false} CollapseLast(w: seq<Sent>)
    ensures Collapse(w) == [] <==> w == []
    ensures w != [] ==> Collapse(w)[|Collapse(w)| - 1] == w[|w| - 1]
  {
    if |w| > 1 {
      CollapseLast(w[..|w| - 1]);
    }
  }

  lemma CollapseAppend(w: seq<Sent>, x: Sent)
    ensures w != [] && w[|w| - 1] == x ==> Collapse(w + [x]) == Collapse(w)
    ensures w == [] || w[|w| - 1] != x ==> Collapse(w + [x]) == Collapse(w) + [x]
  {
    assert (w + [x])[..|w + [x]| - 1] == w;
  }

  /** The finished requests that were written, each with its position. */
  function Written(done: seq<Done>): (r: seq<Sent>) {
    if done == [] then []
    else
      var k := |done| - 1;
      Written(done[..k]) + if done[k].outcome.Unsent? then [] else [Sent(k, done[k].bundle)]
  }

  lemma {:induction false} WrittenBelow(done: seq<Done>)
    ensures forall x :: x in Written(done) ==> x.index < |done|
  {
    if done != [] {
      WrittenBelow(done[..|done| - 1]);
    }
  }

  lemma WrittenAppend(done: seq<Done>, d: Done)
    ensures Written(done + [d])
         == Written(done) + if d.outcome.Unsent? then [] else [Sent(|done|, d.bundle)]
  {
    assert (done + [d])[..|done + [d]| - 1] == done;
  }

  /** Appending requests that were never sent adds nothing to what was written. */
  lemma {:induction false} WrittenUnsent(done: seq<Done>, more: seq<Done>)
    requires forall i :: 0 <= i < |more| ==> more[i].outcome.Unsent?
    ensures Written(done + more) == Written(done)
    decreases |more|
  {
    if more == [] {
      assert done + more == done;
    } else {
      var k := |more| - 1;
      WrittenUnsent(done, more[..k]);
      WrittenAppend(done + more[..k], more[k]);
      assert done + more == done + more[..k] + [more[k]];
    }
  }

  lemma WrittenDropped(done: seq<Done>, head: Done, rest: seq<Done>)
    requires head.outcome.Dropped?
    requires forall i :: 0 <= i < |rest| ==> rest[i].outcome.Unsent?
    ensures Written(done + ([head] + rest)) == Written(done) + [Sent(|done|, head.bundle)]
  {
    var all := done + ([head] + rest);
    var sent := done + [head];
    assert all == sent + rest;
    assert Written(all) == Written(sent) by { WrittenUnsent(sent, rest); }
    assert Written(sent) == Written(done) + [Sent(|done|, head.bundle)] by { WrittenAppend(done, head); }
  }

  function Outstanding(ch: Channel): (r: seq<Sent>) {
    if ch.pending.Some? && ch.queue != [] then [Sent(|ch.finished|, ch.queue[0])] else []
  }

  ghost predicate PendingIsHead(ch: Channel) {
    ch.pending.Some? ==> ch.queue != [] && ch.pending.value == ch.queue[0]
  }

  lemma WrittenDiscarded(ch: Channel)
    requires PendingIsHead(ch)
    ensures Written(ch.finished + Discarded(ch.queue, ch.pending))
         == Written(ch.finished) + Outstanding(ch)
  {
    var more := Discarded(ch.queue, ch.pending);
    if ch.pending.Some? {
      assert more == [more[0]] + more[1..];
      WrittenDropped(ch.finished, more[0], more[1..]);
    } else {
      WrittenUnsent(ch.finished, more);
    }
  }

  // ----- The invariant of every run -----

  ghost predicate Conserved(ch: Channel) {
    ch.accepted == Bundles(ch.finished) + ch.queue
  }

  ghost predicate WireInOrder(ch: Channel) {
    Collapse(ch.writes) == Written(ch.finished) + Outstanding(ch)
  }

  ghost predicate Identified(ch: Channel) {
    forall i :: 0 <= i < |ch.queue| ==> ch.queue[i].id != ""
  }

  ghost predicate Typed(ch: Channel) {
    forall i :: 0 <= i < |ch.finished| && ch.finished[i].outcome.Confirmed? ==>
      ch.finished[i].outcome.feature == ch.finished[i].bundle.request.feature
  }

  /** The part of the invariant that speaks of the present only. */
  ghost predicate Shape(ch: Channel) {
    PendingIsHead(ch) && Identified(ch)
  }

  ghost predicate Inv(ch: Channel) {
    Shape(ch) && Conserved(ch) && WireInOrder(ch) && Typed(ch)
  }

  lemma ConservedFinish(queue: seq<Bundle>, finished: seq<Done>, o: Outcome)
    requires queue != []
    ensures Bundles(finished + [Done(queue[0], o)]) + queue[1..] == Bundles(finished) + queue
  {
    var d := Done(queue[0], o);
    var before := Bundles(finished);
    assert (finished + [d])[..|finished|] == finished;
    assert Bundles(finished + [d]) == before + [queue[0]];
    assert [queue[0]] + queue[1..] == queue;
  }

  lemma ConservedDiscard(queue: seq<Bundle>, pending: Option<Bundle>, finished: seq<Done>)
    ensures Bundles(finished + Discarded(queue, pending)) + [] == Bundles(finished) + queue
  {
    BundlesAppend(finished, Discarded(queue, pending));
  }

  lemma ConservedStep(ch: Channel, op: Op)
    requires Conserved(ch) && Can(ch, op)
    ensures Conserved(Apply(ch, op))
  {
    match op
    case Finish(o) => ConservedFinish(ch.queue, ch.finished, o);
    case Discard => ConservedDiscard(ch.queue, ch.pending, ch.finished);
    case Accept(_) =>
    case Send =>
    case Resend =>
  }

  /** A new entry is not a repetition of the last one: everything written so far has finished. */
  lemma CollapseNew(w: seq<Sent>, done: seq<Done>, x: Sent)
    requires Collapse(w) == Written(done) && x.index == |done|
    ensures Collapse(w + [x]) == Collapse(w) + [x]
  {
    if w != [] {
      assert w[|w| - 1] in Written(done) by { CollapseLast(w); }
      assert w[|w| - 1] != x by { WrittenBelow(done); }
    }
    CollapseAppend(w, x);
  }

  /** Writing the outstanding request again is a repetition. */
  lemma CollapseAgain(w: seq<Sent>, before: seq<Sent>, x: Sent)
    requires Collapse(w) == before + [x]
    ensures Collapse(w + [x]) == Collapse(w)
  {
    CollapseLast(w);
    CollapseAppend(w, x);
  }

  lemma WireOnSend(ch: Channel)
    requires WireInOrder(ch) && Can(ch, Send)
    ensures WireInOrder(Apply(ch, Send))
  {
    assert Collapse(ch.writes) == Written(ch.finished) + [] == Written(ch.finished);
    CollapseNew(ch.writes, ch.finished, Sent(|ch.finished|, ch.queue[0]));
  }

  lemma WireOnResend(ch: Channel)
    requires WireInOrder(ch) && Can(ch, Resend)
    ensures WireInOrder(Apply(ch, Resend))
  {
    CollapseAgain(ch.writes, Written(ch.finished), Sent(|ch.finished|, ch.queue[0]));
  }

  lemma WireOnFinish(ch: Channel, o: Outcome)
    requires WireInOrder(ch) && Can(ch, Finish(o))
    ensures WireInOrder(Apply(ch, Finish(o)))
  {
    WrittenAppend(ch.finished, Done(ch.queue[0], o));
  }

  lemma WireOnDiscard(ch: Channel)
    requires WireInOrder(ch) && PendingIsHead(ch)
    ensures WireInOrder(Apply(ch, Discard))
  {
    WrittenDiscarded(ch);
  }

  lemma WireStep(ch: Channel, op: Op)
    requires WireInOrder(ch) && PendingIsHead(ch) && Can(ch, op)
    ensures WireInOrder(Apply(ch, op))
  {
    match op
    case Accept(_) =>
    case Send => WireOnSend(ch);
    case Resend => WireOnResend(ch);
    case Finish(o) => WireOnFinish(ch, o);
    case Discard => WireOnDiscard(ch);
  }

  lemma ShapeStep(ch: Channel, op: Op)
    requires Shape(ch) && Can(ch, op)
    ensures Shape(Apply(ch, op))
  {
  }

  lemma TypedStep(ch: Channel, op: Op)
    requires Typed(ch) && PendingIsHead(ch) && Can(ch, op)
    ensures Typed(Apply(ch, op))
  {
  }

  lemma InvStep(ch: Channel, op: Op)
    requires Inv(ch) && Can(ch, op)
    ensures Inv(Apply(ch, op))
  {
    assert Shape(Apply(ch, op)) by { ShapeStep(ch, op); }
    assert Conserved(Apply(ch, op)) by { ConservedStep(ch, op); }
    assert WireInOrder(Apply(ch, op)) by { WireStep(ch, op); }
    assert Typed(Apply(ch, op)) by { TypedStep(ch, op); }
  }

  /** Every run of the channel conserves requests, writes in order and keeps pending at the head. */
  lemma {:induction false} InvRun(ch: Channel, ops: seq<Op>)
    requires Inv(ch) && Valid(ch, ops)
    ensures Inv(After(ch, ops))
    decreases |ops|
  {
    if ops != [] {
      InvStep(ch, ops[0]);
      InvRun(Apply(ch, ops[0]), ops[1..]);
    }
  }

  /** Only an Accept makes the queue longer. */
  lemma {:induction false} QueueGrowsByAccept(ch: Channel, ops: seq<Op>)
    requires Valid(ch, ops) && forall i :: 0 <= i < |ops| ==> !ops[i].Accept?
    ensures |After(ch, ops).queue| <= |ch.queue|
    decreases |ops|
  {
    if ops != [] {
      forall i | 0 <= i < |ops[1..]| ensures !ops[1..][i].Accept? { assert ops[1..][i] == ops[i + 1]; }
      QueueGrowsByAccept(Apply(ch, ops[0]), ops[1..]);
    }
  }

  /** The history only grows: what was accepted, finished or written stays where it is. */
  lemma {:induction false} HistoryGrows(ch: Channel, ops: seq<Op>)
    requires Valid(ch, ops)
    ensures ch.accepted <= After(ch, ops).accepted
    ensures ch.finished <= After(ch, ops).finished
    ensures ch.writes <= After(ch, ops).writes
    decreases |ops|
  {
    if ops != [] {
      HistoryGrows(Apply(ch, ops[0]), ops[1..]);
    }
  }

  // ----- Repeated writes -----

  /** Every request handed to the network was handed over once. */
  ghost predicate WrittenOnce(ch: Channel) {
    ch.writes == Written(ch.finished) + Outstanding(ch)
  }

  /** How often an outstanding request was handed over again. */
  function Resends(ops: seq<Op>): (n: nat) {
    if ops == [] then 0 else (if ops[0].Resend? then 1 else 0) + Resends(ops[1..])
  }

  lemma {:induction false} ResendsAppend(first: seq<Op>, second: seq<Op>)
    ensures Resends(first + second) == Resends(first) + Resends(second)
    decreases |first|
  {
    if first == [] {
      assert first + second == second;
    } else {
      ResendsAppend(first[1..], second);
      assert (first + second)[1..] == first[1..] + second;
    }
  }

  lemma ResendsShort(a: Op, b: Op)
    ensures Resends([a]) == if a.Resend? then 1 else 0
    ensures Resends([a, b]) == Resends([a]) + Resends([b])
  {
    assert [a][1..] == [] && [a, b][1..] == [b] && [b][1..] == [];
  }

  /** Writes beyond the one that every written request needs. */
  function Surplus(ch: Channel): (n: int) {
    |ch.writes| - |Written(ch.finished)| - |Outstanding(ch)|
  }

  lemma SurplusStep(ch: Channel, op: Op)
    requires PendingIsHead(ch) && Can(ch, op)
    ensures Surplus(Apply(ch, op)) == Surplus(ch) + (if op.Resend? then 1 else 0)
  {
    match op
    case Finish(o) => WrittenAppend(ch.finished, Done(ch.queue[0], o));
    case Discard => WrittenDiscarded(ch);
    case Accept(_) =>
    case Send =>
    case Resend =>
  }

  lemma {:induction false} SurplusRun(ch: Channel, ops: seq<Op>)
    requires Shape(ch) && Valid(ch, ops)
    ensures Surplus(After(ch, ops)) == Surplus(ch) + Resends(ops)
    decreases |ops|
  {
    if ops != [] {
      SurplusStep(ch, ops[0]);
      ShapeStep(ch, ops[0]);
      SurplusRun(Apply(ch, ops[0]), ops[1..]);
    }
  }

  lemma {:induction false} CollapseLength(w: seq<Sent>)
    ensures |Collapse(w)| <= |w|
    ensures |Collapse(w)| == |w| ==> Collapse(w) == w
    decreases |w|
  {
    if |w| > 0 {
      var k := |w| - 1;
      CollapseLength(w[..k]);
      assert w == w[..k] + [w[k]];
      CollapseAppend(w[..k], w[k]);
    }
  }

  /**
   Over every run from the empty channel the surplus writes are exactly the Resends, so no
   request is written twice if and only if the run contains none.
   */
  lemma SurplusIsResends(ops: seq<Op>)
    requires Valid(EMPTY, ops)
    ensures Surplus(After(EMPTY, ops)) == Resends(ops)
    ensures WrittenOnce(After(EMPTY, ops)) <==> Resends(ops) == 0
  {
    var ch := After(EMPTY, ops);
    SurplusRun(EMPTY, ops);
    InvRun(EMPTY, ops);
    CollapseLength(ch.writes);
  }
}
