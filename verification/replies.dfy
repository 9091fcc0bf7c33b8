/**
 The reply side of an OCPP 1.6 endpoint, central system or charge point alike: what is written
 back when a frame arrives.

 The n-th write attempt succeeds iff net(n). Application handlers, their registration and the
 set of actions the endpoint has a case for are parameters of the role.
 */
module Replies {
  import opened Types
  import opened Frames

  datatype Attempt = Attempt(frame: Frame, delivered: bool)

  /** What one sending function did: its attempts and the error it returns. */
  datatype Sending = Sending(attempts: seq<Attempt>, fault: Option<Fault>)

  datatype HandlerResult =
    | OcppFailure(code: string, description: string)
    | OtherFailure(description: string)
    | NoConfirmation
    | Confirmation(payload: Payload)

  datatype Role = Role(
    actions: set<string>,
    registered: set<string>,
    handle: (string, Payload) -> HandlerResult)

  type Network = nat -> bool

  const GROUPS := {"Core", "LocalAuthListManagement", "FirmwareManagement", "Reservation", "RemoteTrigger", "SmartCharging"}

  // ----- Sending -----

  function Transmitted(net: Network, n: nat, frame: Option<Frame>, id: string): (r: Sending) {
    var failure := Some(Protocol(OcppError(GENERIC_ERROR, "sending failed", id)));
    if frame.None? then Sending([], failure)
    else Sending([Attempt(frame.value, net(n))], if net(n) then None else failure)
  }

  function SendError(ep: Endpoint, net: Network, n: nat, id: string, code: string, description: string): (r: Sending) {
    match CreateCallError(ep, id, code, description, None)
    case Failed(fault) => Sending([], Some(fault))
    case Ok(m) => Transmitted(net, n, Marshal(ep, m), id)
  }

  function SendResponse(ep: Endpoint, net: Network, n: nat, id: string, confirmation: Payload): (r: Sending) {
    match CreateCallResult(ep, confirmation, id)
    case Failed(fault) => Sending([], Some(fault))
    case Ok(m) => Transmitted(net, n, Marshal(ep, m), id)
  }

  /** The code HandleFailedResponseError chooses. */
  function FaultCode(fault: Fault): (code: string) {
    match fault
    case Invalid(tags) => ViolationCode(tags)
    case Protocol(err) => err.code
    case Unsupported(_) => GENERIC_ERROR
  }

  /** A failed sending is followed by one attempt to send a default error instead. */
  function WithFallback(ep: Endpoint, net: Network, n: nat, id: string, first: Sending): (attempts: seq<Attempt>) {
    if first.fault.None? then first.attempts
    else
      first.attempts
      + SendError(ep, net, n + |first.attempts|, id, FaultCode(first.fault.value), "default error").attempts
  }

  /** sendResponse: turn the application's result into a reply. */
  function Reply(ep: Endpoint, net: Network, n: nat, id: string, result: HandlerResult): (attempts: seq<Attempt>) {
    match result
    case OcppFailure(code, description) =>
      WithFallback(ep, net, n, id, SendError(ep, net, n, id, code, description))
    case OtherFailure(description) =>
      WithFallback(ep, net, n, id, SendError(ep, net, n, id, INTERNAL_ERROR, description))
    case NoConfirmation => SendError(ep, net, n, id, GENERIC_ERROR, "empty confirmation").attempts
    case Confirmation(payload) => WithFallback(ep, net, n, id, SendResponse(ep, net, n, id, payload))
  }

  function HandleRequest(ep: Endpoint, role: Role, net: Network, n: nat, call: Message): (attempts: seq<Attempt>)
    requires call.Call?
  {
    match ProfileFor(ep.profiles, call.action)
    case None => SendError(ep, net, n, call.id, NOT_IMPLEMENTED, "no handler").attempts
    case Some(profile) =>
      if profile.name in GROUPS && profile.name !in role.registered then
        SendError(ep, net, n, call.id, NOT_SUPPORTED, "unsupported action").attempts
      else if call.action !in role.actions then
        SendError(ep, net, n, call.id, NOT_SUPPORTED, "unsupported action").attempts
      else Reply(ep, net, n, call.id, role.handle(call.action, call.payload))
  }

  /** ocppMessageHandler: everything written because of one incoming frame. */
  function Handle(ep: Endpoint, role: Role, net: Network, n: nat, pending: Option<Bundle>, arr: Frame): (attempts: seq<Attempt>) {
    match ParseMessage(ep, pending, arr)
    case Malformed(err) =>
      if err.id == "" then [] else SendError(ep, net, n, err.id, err.code, err.description).attempts
    case Nothing => []
    case Message(m) => if m.Call? then HandleRequest(ep, role, net, n, m) else []
  }

  /** The request completed by a frame, if any: the dispatcher is told before the handler. */
  function Completes(ep: Endpoint, pending: Option<Bundle>, arr: Frame): (r: Option<Message>) {
    match ParseMessage(ep, pending, arr)
    case Message(m) => if m.Call? then None else Some(m)
    case _ => None
  }

  // ----- Reply frames -----

  /** A frame that answers id. */
  predicate Answers(frame: Frame, id: string) {
    |frame| >= 3 && (frame[0] == Num(3.0) || frame[0] == Num(4.0)) && frame[1] == Str(id)
  }

  function Delivered(attempts: seq<Attempt>): (n: nat) {
    if attempts == [] then 0
    else Delivered(attempts[..|attempts| - 1]) + if attempts[|attempts| - 1].delivered then 1 else 0
  }

  /** At most one attempt, for id; it is missing only because of an error, and failed iff the net failed. */
  ghost predicate Single(net: Network, n: nat, id: string, r: Sending) {
    && |r.attempts| <= 1
    && (r.attempts != [] ==> Answers(r.attempts[0].frame, id) && r.attempts[0].delivered == net(n))
    && (r.fault.None? <==> r.attempts != [] && net(n))
    && (r.fault.Some? && r.fault.value.Protocol? ==> IsErrorCodeValid(r.fault.value.err.code))
  }

  /** An error reply to an acceptable id with a valid code is always built. */
  predicate Replyable(ep: Endpoint, id: string) {
    id != "" && (!ep.validation || |id| <= MAX_LENGTH)
  }

  lemma SendErrorSingle(ep: Endpoint, net: Network, n: nat, id: string, code: string, description: string)
    ensures Single(net, n, id, SendError(ep, net, n, id, code, description))
    ensures Replyable(ep, id) && IsErrorCodeValid(code) ==> |SendError(ep, net, n, id, code, description).attempts| == 1
    ensures ep.validation && |id| > MAX_LENGTH ==> SendError(ep, net, n, id, code, description).attempts == []
    ensures SendError(ep, net, n, id, code, description).attempts == [] ==>
              SendError(ep, net, n, id, code, description).fault.value.Invalid?
  {
  }

  lemma SendResponseSingle(ep: Endpoint, net: Network, n: nat, id: string, confirmation: Payload)
    ensures Single(net, n, id, SendResponse(ep, net, n, id, confirmation))
    ensures ep.validation && |id| > MAX_LENGTH ==> SendResponse(ep, net, n, id, confirmation).attempts == []
  {
  }

  /**
   The property of a whole reply: at most two attempts, all for id; a second one only after a
   failed first one; and, for an acceptable id, at least one.
   */
  ghost predicate OneReply(ep: Endpoint, net: Network, n: nat, id: string, attempts: seq<Attempt>) {
    && |attempts| <= 2
    && (forall i :: 0 <= i < |attempts| ==>
          Answers(attempts[i].frame, id) && attempts[i].delivered == net(n + i))
    && (|attempts| == 2 ==> !net(n))
    && (Replyable(ep, id) ==> attempts != [])
    && (ep.validation && |id| > MAX_LENGTH ==> attempts == [])
  }

  lemma SingleIsOneReply(ep: Endpoint, net: Network, n: nat, id: string, code: string, description: string)
    requires IsErrorCodeValid(code)
    ensures OneReply(ep, net, n, id, SendError(ep, net, n, id, code, description).attempts)
  {
    SendErrorSingle(ep, net, n, id, code, description);
  }

  lemma FallbackIsOneReply(ep: Endpoint, net: Network, n: nat, id: string, first: Sending)
    requires Single(net, n, id, first)
    requires ep.validation && |id| > MAX_LENGTH ==> first.attempts == []
    ensures OneReply(ep, net, n, id, WithFallback(ep, net, n, id, first))
  {
    if first.fault.Some? {
      var code := FaultCode(first.fault.value);
      assert IsErrorCodeValid(code);
      SendErrorSingle(ep, net, n + |first.attempts|, id, code, "default error");
    }
  }

  lemma ReplyIsOneReply(ep: Endpoint, net: Network, n: nat, id: string, result: HandlerResult)
    ensures OneReply(ep, net, n, id, Reply(ep, net, n, id, result))
  {
    match result {
      case OcppFailure(code, description) =>
        SendErrorSingle(ep, net, n, id, code, description);
        FallbackIsOneReply(ep, net, n, id, SendError(ep, net, n, id, code, description));
      case OtherFailure(description) =>
        SendErrorSingle(ep, net, n, id, INTERNAL_ERROR, description);
        FallbackIsOneReply(ep, net, n, id, SendError(ep, net, n, id, INTERNAL_ERROR, description));
      case NoConfirmation => SingleIsOneReply(ep, net, n, id, GENERIC_ERROR, "empty confirmation");
      case Confirmation(payload) =>
        SendResponseSingle(ep, net, n, id, payload);
        FallbackIsOneReply(ep, net, n, id, SendResponse(ep, net, n, id, payload));
    }
  }

  lemma RequestGetsOneReply(ep: Endpoint, role: Role, net: Network, n: nat, call: Message)
    requires call.Call?
    ensures OneReply(ep, net, n, call.id, HandleRequest(ep, role, net, n, call))
  {
    SingleIsOneReply(ep, net, n, call.id, NOT_IMPLEMENTED, "no handler");
    SingleIsOneReply(ep, net, n, call.id, NOT_SUPPORTED, "unsupported action");
    ReplyIsOneReply(ep, net, n, call.id, role.handle(call.action, call.payload));
  }

  lemma CallGetsOneReply(ep: Endpoint, role: Role, net: Network, n: nat, pending: Option<Bundle>, arr: Frame)
    requires IsCall(arr)
    ensures OneReply(ep, net, n, FrameId(arr), Handle(ep, role, net, n, pending, arr))
  {
    CallIsAttributed(ep, pending, arr);
    match ParseMessage(ep, pending, arr)
    case Message(m) => RequestGetsOneReply(ep, role, net, n, m);
    case Malformed(err) => SingleIsOneReply(ep, net, n, err.id, err.code, err.description);
  }

  /**
   Exactly one reply: for every incoming CALL frame with a non-empty id, whatever its action,
   payload and handler result, with working writes, one reply frame with that id is delivered if
   and only if the id has at most 36 characters or validation is off; otherwise none is.
   */
  lemma ExactlyOneReply(ep: Endpoint, role: Role, net: Network, n: nat, pending: Option<Bundle>, arr: Frame)
    requires IsCall(arr) && net(n)
    ensures var attempts := Handle(ep, role, net, n, pending, arr);
            && (Replyable(ep, FrameId(arr)) <==> |attempts| == 1)
            && (!Replyable(ep, FrameId(arr)) <==> attempts == [])
            && (attempts != [] ==> attempts[0].delivered && Answers(attempts[0].frame, FrameId(arr)))
  {
    CallGetsOneReply(ep, role, net, n, pending, arr);
  }

  lemma DeliveredAtMostOne(attempts: seq<Attempt>)
    requires |attempts| <= 2 && (|attempts| == 2 ==> !attempts[0].delivered)
    ensures Delivered(attempts) <= 1
  {
    if |attempts| == 2 {
      assert attempts[..1] == [attempts[0]];
      assert Delivered(attempts[..1]) == Delivered([attempts[0]][..0]) + 0;
    }
  }

  /** With any pattern of failing writes: at most two attempts and at most one delivered frame. */
  lemma AtMostOneReply(ep: Endpoint, role: Role, net: Network, n: nat, pending: Option<Bundle>, arr: Frame)
    requires IsCall(arr)
    ensures var attempts := Handle(ep, role, net, n, pending, arr);
            && |attempts| <= 2 && Delivered(attempts) <= 1
            && (Replyable(ep, FrameId(arr)) ==> attempts != [])
            && forall i :: 0 <= i < |attempts| ==> Answers(attempts[i].frame, FrameId(arr))
  {
    CallGetsOneReply(ep, role, net, n, pending, arr);
    DeliveredAtMostOne(Handle(ep, role, net, n, pending, arr));
  }

  // ----- The response gate -----

  /** A CALL RESULT for b whose payload is a clean response of b's feature. */
  predicate IsResultFor(ep: Endpoint, b: Bundle, arr: Frame) {
    && |arr| >= 3 && arr[0].Num? && 3.0 <= arr[0].n < 4.0
    && arr[1] == Str(b.id) && 1 <= |b.id| <= 36
    && var response := ep.codec.decodeResponse(b.request.feature, Body(arr[2]));
       response.Some? && ep.codec.violations(response.value) == []
  }

  /** A CALL ERROR for b with a known code. */
  predicate IsErrorFor(b: Bundle, arr: Frame) {
    && |arr| >= 4 && arr[0].Num? && 4.0 <= arr[0].n < 5.0
    && arr[1] == Str(b.id) && 1 <= |b.id| <= 36
    && arr[2].Str? && IsErrorCodeValid(arr[2].s)
  }

  /** What such a frame says. */
  function ResultIn(ep: Endpoint, b: Bundle, arr: Frame): (m: Message)
    requires IsResultFor(ep, b, arr)
  {
    CallResult(b.id, ep.codec.decodeResponse(b.request.feature, Body(arr[2])).value)
  }

  function ErrorIn(b: Bundle, arr: Frame): (m: Message)
    requires IsErrorFor(b, arr)
  {
    CallError(b.id, arr[2].s, if arr[3].Str? then arr[3].s else "",
              if |arr| > 4 && arr[4] != Null then Some(arr[4]) else None)
  }

  lemma ResultGate(ep: Endpoint, pending: Option<Bundle>, arr: Frame)
    requires FrameId(arr) != "" && 3.0 <= arr[0].n < 4.0
    ensures Completes(ep, pending, arr)
         == if pending.Some? && IsResultFor(ep, pending.value, arr) then Some(ResultIn(ep, pending.value, arr))
            else None
  {
    TypeByRange(ep, pending, arr);
    if pending.Some? && pending.value.id == FrameId(arr) {
      ResultFlawIff(ep, pending.value, arr);
    }
  }

  lemma ErrorGate(ep: Endpoint, pending: Option<Bundle>, arr: Frame)
    requires FrameId(arr) != "" && 4.0 <= arr[0].n < 5.0
    ensures Completes(ep, pending, arr)
         == if pending.Some? && IsErrorFor(pending.value, arr) then Some(ErrorIn(pending.value, arr)) else None
  {
    TypeByRange(ep, pending, arr);
    if pending.Some? && pending.value.id == FrameId(arr) {
      ErrorFlawIff(ep, pending.value, arr);
    }
  }

  /**
   A frame completes a request if and only if a request is pending and the frame is a CALL RESULT
   or a CALL ERROR for it in the sense above, which names neither the parser nor its checks; and
   what it is completed with is what the frame says.
   */
  lemma AnswerGate(ep: Endpoint, pending: Option<Bundle>, arr: Frame)
    ensures Completes(ep, pending, arr)
         == if pending.Some? && IsResultFor(ep, pending.value, arr) then Some(ResultIn(ep, pending.value, arr))
            else if pending.Some? && IsErrorFor(pending.value, arr) then Some(ErrorIn(pending.value, arr))
            else None
  {
    ParseIsSound(ep, pending, arr);
    if FrameId(arr) != "" {
      if 3.0 <= arr[0].n < 4.0 {
        ResultGate(ep, pending, arr);
      } else if 4.0 <= arr[0].n < 5.0 {
        ErrorGate(ep, pending, arr);
      } else {
        TypeByRange(ep, pending, arr);
      }
    }
  }

  /** A frame for any other id than the pending one completes nothing and, unless a CALL, is not answered. */
  lemma OtherIdsIgnored(ep: Endpoint, role: Role, net: Network, n: nat, pending: Option<Bundle>, arr: Frame)
    requires |arr| >= 3 && arr[0].Num? && FrameId(arr) != ""
    requires pending.None? || pending.value.id != FrameId(arr)
    ensures Completes(ep, pending, arr).None?
    ensures Truncate(arr[0].n) == CALL_RESULT || Truncate(arr[0].n) == CALL_ERROR ==>
              Handle(ep, role, net, n, pending, arr) == []
  {
    ParseIsSound(ep, pending, arr);
  }

  // ----- Bounded exchange -----

  /** A frame built by CreateCallError with validation on. */
  ghost predicate IsErrorFrame(frame: Frame) {
    && |frame| == 5 && frame[0] == Num(4.0) && frame[1].Str? && frame[2].Str? && frame[3].Str?
    && NameTags(frame[1].s) == [] && IsErrorCodeValid(frame[2].s)
  }

  lemma SendErrorBuildsErrorFrames(ep: Endpoint, net: Network, n: nat, id: string, code: string, description: string)
    requires ep.validation
    ensures var r := SendError(ep, net, n, id, code, description);
            r.attempts != [] ==> IsErrorFrame(r.attempts[0].frame)
  {
    if CreateCallError(ep, id, code, description, None).Ok? {
      IdRequired(id, CodeTags(code));
    }
  }

  /** Such a frame never makes its receiver send anything, whatever the receiver and its state. */
  lemma ErrorFramesAreFinal(ep: Endpoint, role: Role, net: Network, n: nat, pending: Option<Bundle>, frame: Frame)
    requires IsErrorFrame(frame)
    ensures Handle(ep, role, net, n, pending, frame) == []
  {
    assert Truncate(4.0) == 4;
    assert FrameId(frame) != "";
  }

  /** Whatever is sent because of a frame that is no CALL is an error frame. */
  lemma NonCallsCauseErrors(ep: Endpoint, role: Role, net: Network, n: nat, pending: Option<Bundle>, arr: Frame)
    requires ep.validation && !IsCall(arr)
    ensures var attempts := Handle(ep, role, net, n, pending, arr);
            |attempts| <= 1 && (attempts != [] ==> IsErrorFrame(attempts[0].frame))
  {
    match ParseMessage(ep, pending, arr)
    case Malformed(err) =>
      if err.id != "" {
        SendErrorSingle(ep, net, n, err.id, err.code, err.description);
        SendErrorBuildsErrorFrames(ep, net, n, err.id, err.code, err.description);
      }
    case _ =>
  }

  /** The frame that reached the peer, if any. */
  function DeliveredFrame(attempts: seq<Attempt>): (r: Option<Frame>) {
    if attempts == [] then None
    else if attempts[|attempts| - 1].delivered then Some(attempts[|attempts| - 1].frame)
    else None
  }

  /** The endpoint's part in an exchange: itself, its handlers, its network and its pending request. */
  datatype Side = Side(ep: Endpoint, role: Role, net: Network, pending: Option<Bundle>)

  function Respond(side: Side, frame: Option<Frame>): (r: Option<Frame>) {
    if frame.None? then None
    else DeliveredFrame(Handle(side.ep, side.role, side.net, 0, side.pending, frame.value))
  }

  lemma AnswersAreNoCalls(frame: Frame, id: string)
    requires Answers(frame, id)
    ensures !IsCall(frame)
  {
  }

  lemma CallIsAnswered(side: Side, call: Frame)
    requires IsCall(call)
    ensures var r := Respond(side, Some(call)); r.Some? ==> Answers(r.value, FrameId(call))
  {
    CallGetsOneReply(side.ep, side.role, side.net, 0, side.pending, call);
  }

  lemma AnswerIsRefusedByError(side: Side, answer: Frame, id: string)
    requires side.ep.validation && Answers(answer, id)
    ensures var r := Respond(side, Some(answer)); r.Some? ==> IsErrorFrame(r.value)
  {
    AnswersAreNoCalls(answer, id);
    NonCallsCauseErrors(side.ep, side.role, side.net, 0, side.pending, answer);
  }

  /**
   An exchange started by one CALL frame has at most three frames: the CALL, its answer and, if
   the caller finds the answer malformed, one error, which is never answered. The caller has
   validation on; roles, networks and pending requests are arbitrary and may change in between.
   */
  lemma BoundedExchange(callee: Side, caller: Side, calleeLater: Side, call: Frame)
    requires IsCall(call) && caller.ep.validation
    ensures Respond(calleeLater, Respond(caller, Respond(callee, Some(call)))) == None
  {
    CallIsAnswered(callee, call);
    var second := Respond(callee, Some(call));
    if second.Some? {
      AnswerIsRefusedByError(caller, second.value, FrameId(call));
      var third := Respond(caller, second);
      if third.Some? {
        ErrorFramesAreFinal(calleeLater.ep, calleeLater.role, calleeLater.net, 0, calleeLater.pending, third.value);
      }
    }
  }
}
