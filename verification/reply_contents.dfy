/**
 What is on the wire: for every frame that arrives and every pattern of failing writes, the frames
 that are written because of it. The expectations are stated in terms of the incoming frame, the
 profiles, the handlers and the codec only.
 */
module ReplyContents {
  import opened Types
  import opened Frames
  import opened Replies

  // ----- Frames that are expected -----

  /** A CALL ERROR as it is written: five elements, empty details. */
  function ErrorFrame(id: string, code: string, description: string): (frame: Frame) {
    [Num(4.0), Str(id), Str(code), Str(description), Obj([])]
  }

  predicate IsErrorWith(frame: Frame, id: string, code: string) {
    |frame| == 5 && frame[3].Str? && frame == ErrorFrame(id, code, frame[3].s)
  }

  /** One attempt, with an error of that code. */
  predicate OneError(net: Network, n: nat, id: string, code: string, attempts: seq<Attempt>) {
    |attempts| == 1 && attempts[0].delivered == net(n) && IsErrorWith(attempts[0].frame, id, code)
  }

  /** The frame is tried; if its write fails, a GenericError is tried once. */
  predicate Insists(net: Network, n: nat, id: string, frame: Frame, attempts: seq<Attempt>) {
    && |attempts| == (if net(n) then 1 else 2)
    && attempts[0] == Attempt(frame, net(n))
    && (!net(n) ==> attempts[1].delivered == net(n + 1) && IsErrorWith(attempts[1].frame, id, "GenericError"))
  }

  ghost predicate Supported(ep: Endpoint, feature: string) {
    exists i :: 0 <= i < |ep.profiles| && feature in ep.profiles[i].features
  }

  ghost predicate Sendable(ep: Endpoint, p: Payload) {
    Supported(ep, p.feature) && (ep.validation ==> ep.codec.violations(p) == []) && ep.codec.encode(p).Some?
  }

  /** The code sent in place of a confirmation that cannot be sent. */
  ghost function ConfirmationFlaw(ep: Endpoint, p: Payload): (code: string) {
    if !Supported(ep, p.feature) then "NotSupported"
    else if ep.validation && ep.codec.violations(p) != [] then ViolationCode(ep.codec.violations(p))
    else "GenericError"
  }

  /** The attempts are the reply to what a handler returned. */
  ghost predicate IsReplyTo(ep: Endpoint, net: Network, n: nat, id: string, result: HandlerResult, attempts: seq<Attempt>) {
    match result
    case Confirmation(p) =>
      if Sendable(ep, p) then Insists(net, n, id, [Num(3.0), Str(id), ep.codec.encode(p).value], attempts)
      else OneError(net, n, id, ConfirmationFlaw(ep, p), attempts)
    case OcppFailure(code, description) =>
      if ep.validation && !IsErrorCodeValid(code) then OneError(net, n, id, "GenericError", attempts)
      else Insists(net, n, id, ErrorFrame(id, code, description), attempts)
    case OtherFailure(description) =>
      Insists(net, n, id, ErrorFrame(id, "InternalError", description), attempts)
    case NoConfirmation => OneError(net, n, id, "GenericError", attempts)
  }

  /** The groups of requests that have a handler of their own. */
  predicate IsGroup(name: string) {
    || name == "Core" || name == "LocalAuthListManagement" || name == "FirmwareManagement"
    || name == "Reservation" || name == "RemoteTrigger" || name == "SmartCharging"
  }

  /** The action's group has a handler, or is none of the six, and the endpoint has a case for it. */
  ghost predicate HasHandler(ep: Endpoint, role: Role, action: string) {
    && action in role.actions
    && exists k: nat :: Owns(ep.profiles, k, action)
         && (IsGroup(ep.profiles[k].name) ==> ep.profiles[k].name in role.registered)
  }

  // ----- Sending -----

  lemma SendErrorWrites(ep: Endpoint, net: Network, n: nat, id: string, code: string, description: string)
    requires Replyable(ep, id) && (ep.validation ==> IsErrorCodeValid(code))
    ensures SendError(ep, net, n, id, code, description)
         == Sending([Attempt(ErrorFrame(id, code, description), net(n))],
                    if net(n) then None else Some(Protocol(OcppError("GenericError", "sending failed", id))))
  {
    CreationIff(ep, Payload("", Null), id, code, description, None);
  }

  /** The code for each fault that can stop a reply. */
  lemma FaultCodes(fault: Fault)
    ensures match fault
            case Invalid(tags) => IsCodeFor(tags, FaultCode(fault))
            case Protocol(err) => FaultCode(fault) == err.code
            case Unsupported(_) => FaultCode(fault) == "GenericError"
  {
    if fault.Invalid? { ViolationCodeIs(fault.tags); }
  }

  /** After a fault the fallback carries its code. */
  lemma FallbackWrites(ep: Endpoint, net: Network, n: nat, id: string, first: Sending)
    requires Replyable(ep, id) && first.fault.Some? && IsErrorCodeValid(FaultCode(first.fault.value))
    ensures WithFallback(ep, net, n, id, first)
         == first.attempts + [Attempt(ErrorFrame(id, FaultCode(first.fault.value), "default error"),
                                      net(n + |first.attempts|))]
  {
    SendErrorWrites(ep, net, n + |first.attempts|, id, FaultCode(first.fault.value), "default error");
  }

  lemma ErrorInsists(ep: Endpoint, net: Network, n: nat, id: string, code: string, description: string)
    requires Replyable(ep, id) && (ep.validation ==> IsErrorCodeValid(code))
    ensures Insists(net, n, id, ErrorFrame(id, code, description),
                    WithFallback(ep, net, n, id, SendError(ep, net, n, id, code, description)))
  {
    SendErrorWrites(ep, net, n, id, code, description);
    if !net(n) {
      FallbackWrites(ep, net, n, id, SendError(ep, net, n, id, code, description));
    }
  }

  /** A handler's own code that is not one of the standard is replaced. */
  lemma BadCodeReplaced(ep: Endpoint, net: Network, n: nat, id: string, code: string, description: string)
    requires Replyable(ep, id) && ep.validation && !IsErrorCodeValid(code)
    ensures OneError(net, n, id, "GenericError",
                     WithFallback(ep, net, n, id, SendError(ep, net, n, id, code, description)))
  {
    var first := SendError(ep, net, n, id, code, description);
    NameFirst(id, CodeTags(code));
    UnknownTag("errorCode");
    assert first == Sending([], Some(Invalid(["errorCode"])));
    FallbackWrites(ep, net, n, id, first);
  }

  lemma SupportedIff(ep: Endpoint, feature: string)
    ensures Supported(ep, feature) <==> ProfileFor(ep.profiles, feature).Some?
  {
  }

  lemma ConfirmationWrites(ep: Endpoint, net: Network, n: nat, id: string, p: Payload)
    requires Replyable(ep, id) && Sendable(ep, p)
    ensures SendResponse(ep, net, n, id, p)
         == Sending([Attempt([Num(3.0), Str(id), ep.codec.encode(p).value], net(n))],
                    if net(n) then None else Some(Protocol(OcppError("GenericError", "sending failed", id))))
  {
    SupportedIff(ep, p.feature);
    NameFirst(id, ep.codec.violations(p));
  }

  lemma ConfirmationFails(ep: Endpoint, net: Network, n: nat, id: string, p: Payload)
    requires Replyable(ep, id) && !Sendable(ep, p)
    ensures var first := SendResponse(ep, net, n, id, p);
            && first.attempts == [] && first.fault.Some?
            && FaultCode(first.fault.value) == ConfirmationFlaw(ep, p) && IsErrorCodeValid(ConfirmationFlaw(ep, p))
  {
    SupportedIff(ep, p.feature);
    if ep.validation { NameFirst(id, ep.codec.violations(p)); }
  }

  lemma ConfirmationReplies(ep: Endpoint, net: Network, n: nat, id: string, p: Payload)
    requires Replyable(ep, id)
    ensures IsReplyTo(ep, net, n, id, Confirmation(p),
                      WithFallback(ep, net, n, id, SendResponse(ep, net, n, id, p)))
  {
    var first := SendResponse(ep, net, n, id, p);
    if Sendable(ep, p) {
      ConfirmationWrites(ep, net, n, id, p);
    } else {
      ConfirmationFails(ep, net, n, id, p);
    }
    if first.fault.Some? {
      FallbackWrites(ep, net, n, id, first);
    }
  }

  /** For every handler result: the reply frames, code by code, with any pattern of failing writes. */
  lemma ReplyFrames(ep: Endpoint, net: Network, n: nat, id: string, result: HandlerResult)
    requires Replyable(ep, id)
    ensures IsReplyTo(ep, net, n, id, result, Reply(ep, net, n, id, result))
  {
    match result
    case OcppFailure(code, description) =>
      if ep.validation && !IsErrorCodeValid(code) {
        BadCodeReplaced(ep, net, n, id, code, description);
      } else {
        ErrorInsists(ep, net, n, id, code, description);
      }
    case OtherFailure(description) => ErrorInsists(ep, net, n, id, INTERNAL_ERROR, description);
    case NoConfirmation => SendErrorWrites(ep, net, n, id, GENERIC_ERROR, "empty confirmation");
    case Confirmation(p) => ConfirmationReplies(ep, net, n, id, p);
  }

  // ----- Requests -----

  lemma {:induction false} OwnerExists(profiles: seq<Profile>, feature: string) returns (k: nat)
    requires ProfileFor(profiles, feature).Some?
    ensures Owns(profiles, k, feature)
    decreases |profiles|
  {
    k := 0;
    if feature !in profiles[0].features {
      var i := OwnerExists(profiles[1..], feature);
      k := i + 1;
      forall j | 0 <= j < k ensures feature !in profiles[j].features {
        if j > 0 { assert profiles[1..][j - 1] == profiles[j]; }
      }
    }
  }

  lemma OwnerIsUnique(ep: Endpoint, role: Role, action: string, k: nat)
    requires Owns(ep.profiles, k, action)
    ensures HasHandler(ep, role, action) <==>
              action in role.actions && (ep.profiles[k].name in GROUPS ==> ep.profiles[k].name in role.registered)
  {
    forall i: nat | Owns(ep.profiles, i, action) ensures i == k {
    }
  }

  lemma RequestRouted(ep: Endpoint, role: Role, net: Network, n: nat, call: Message)
    requires call.Call? && Replyable(ep, call.id) && Supported(ep, call.action)
    ensures var attempts := HandleRequest(ep, role, net, n, call);
            if HasHandler(ep, role, call.action) then
              IsReplyTo(ep, net, n, call.id, role.handle(call.action, call.payload), attempts)
            else OneError(net, n, call.id, "NotSupported", attempts)
  {
    SupportedIff(ep, call.action);
    var k := OwnerExists(ep.profiles, call.action);
    OwnerIsFound(ep.profiles, k, call.action);
    OwnerIsUnique(ep, role, call.action, k);
    SendErrorWrites(ep, net, n, call.id, NOT_SUPPORTED, "unsupported action");
    ReplyFrames(ep, net, n, call.id, role.handle(call.action, call.payload));
  }

  /**
   For every CALL frame whose id can be used in a reply, every role and every pattern of failing
   writes: a flawed frame is answered by one CALL ERROR with the code of its flaw; one without a
   handler by NotSupported; and any other by the reply to what its own handler returned for the
   decoded request.
   */
  lemma CallAnswered(ep: Endpoint, role: Role, net: Network, n: nat, pending: Option<Bundle>, arr: Frame)
    requires IsCall(arr) && Replyable(ep, FrameId(arr))
    ensures var attempts, id := Handle(ep, role, net, n, pending, arr), FrameId(arr);
            match CallFlaw(ep, id, arr)
            case Some(code) => OneError(net, n, id, code, attempts)
            case None =>
              var action := arr[2].s;
              if !HasHandler(ep, role, action) then OneError(net, n, id, "NotSupported", attempts)
              else
                var request := ep.codec.decodeRequest(action, Body(arr[3])).value;
                IsReplyTo(ep, net, n, id, role.handle(action, request), attempts)
  {
    var id := FrameId(arr);
    TypeByRange(ep, pending, arr);
    CallFlawIff(ep, id, arr);
    match CallFlaw(ep, id, arr)
    case Some(code) =>
      CallIsAttributed(ep, pending, arr);
      SendErrorWrites(ep, net, n, id, code, ParseMessage(ep, pending, arr).err.description);
    case None =>
      RequestRouted(ep, role, net, n, ParseMessage(ep, pending, arr).message);
  }

  /**
   Any other frame is answered if and only if it has an id that can be used in a reply and is
   rejected with it; then by one CALL ERROR with the code of its flaw.
   */
  lemma NonCallAnswered(ep: Endpoint, role: Role, net: Network, n: nat, pending: Option<Bundle>, arr: Frame)
    requires !IsCall(arr)
    ensures var attempts, id := Handle(ep, role, net, n, pending, arr), FrameId(arr);
            if id != "" && Flaw(ep, pending, arr).Some? && Replyable(ep, id)
            then OneError(net, n, id, Flaw(ep, pending, arr).value, attempts)
            else attempts == []
  {
    var r := ParseMessage(ep, pending, arr);
    MalformedIff(ep, pending, arr);
    ParseIsSound(ep, pending, arr);
    if FrameId(arr) != "" { TypeByRange(ep, pending, arr); }
    if r.Malformed? && r.err.id != "" {
      if Replyable(ep, r.err.id) {
        SendErrorWrites(ep, net, n, r.err.id, r.err.code, r.err.description);
      } else {
        SendErrorSingle(ep, net, n, r.err.id, r.err.code, r.err.description);
      }
    }
  }
}
