/**
 The reply side as an object: server.go, client.go and sendResponse write through a network and
 keep a log of the attempts. Each method is proved to append exactly what Replies prescribes.
 */
module ReplyObjects {
  import opened Types
  import opened Frames
  import opened Replies
  import opened ReplyContents

  class Responder {
    const ep: Endpoint
    const role: Role
    const net: Network
    var log: seq<Attempt>

    constructor (ep: Endpoint, role: Role, net: Network)
      ensures this.ep == ep && this.role == role && this.net == net && log == []
    {
      this.ep, this.role, this.net := ep, role, net;
      log := [];
    }

    /** One write; the network decides. */
    method Write(frame: Frame) returns (ok: bool)
      modifies this
      ensures ok == net(|old(log)|)
      ensures log == old(log) + [Attempt(frame, ok)]
    {
      ok := net(|log|);
      log := log + [Attempt(frame, ok)];
    }

    method SendErrorFrame(id: string, code: string, description: string) returns (fault: Option<Fault>)
      modifies this
      ensures var r := SendError(ep, net, |old(log)|, id, code, description);
              log == old(log) + r.attempts && fault == r.fault
    {
      var created := CreateCallError(ep, id, code, description, None);
      if created.Failed? {
        return Some(created.fault);
      }
      var frame := Marshal(ep, created.message);
      if frame.None? {
        return Some(Protocol(OcppError(GENERIC_ERROR, "sending failed", id)));
      }
      var ok := Write(frame.value);
      if !ok {
        return Some(Protocol(OcppError(GENERIC_ERROR, "sending failed", id)));
      }
      return None;
    }

    method SendResultFrame(id: string, confirmation: Payload) returns (fault: Option<Fault>)
      modifies this
      ensures var r := SendResponse(ep, net, |old(log)|, id, confirmation);
              log == old(log) + r.attempts && fault == r.fault
    {
      var created := CreateCallResult(ep, confirmation, id);
      if created.Failed? {
        return Some(created.fault);
      }
      var frame := Marshal(ep, created.message);
      if frame.None? {
        return Some(Protocol(OcppError(GENERIC_ERROR, "sending failed", id)));
      }
      var ok := Write(frame.value);
      if !ok {
        return Some(Protocol(OcppError(GENERIC_ERROR, "sending failed", id)));
      }
      return None;
    }

    /** One more attempt, with a default error in place of what could not be sent. */
    method HandleFailedResponseError(id: string, fault: Fault)
      modifies this
      ensures log == old(log)
                + SendError(ep, net, |old(log)|, id, FaultCode(fault), "default error").attempts
    {
      var code := GENERIC_ERROR;
      match fault {
        case Invalid(tags) =>
          var err := ErrorFromValidation(tags, id);
          code := err.code;
        case Protocol(err) => code := err.code;
        case Unsupported(_) =>
      }
      var _ := SendErrorFrame(id, code, "default error");
    }

    /** The common end of sendResponse: a fault of the first sending leads to the default error. */
    method FinishReply(id: string, fault: Option<Fault>, ghost start: seq<Attempt>, ghost first: Sending)
      requires log == start + first.attempts && fault == first.fault
      modifies this
      ensures log == start + WithFallback(ep, net, |start|, id, first)
    {
      if fault.Some? {
        HandleFailedResponseError(id, fault.value);
      }
    }

    method SendReply(id: string, result: HandlerResult)
      modifies this
      ensures log == old(log) + Reply(ep, net, |old(log)|, id, result)
      ensures Replyable(ep, id) ==> IsReplyTo(ep, net, |old(log)|, id, result, log[|old(log)|..])
    {
      ghost var start := log;
      if Replyable(ep, id) { ReplyFrames(ep, net, |log|, id, result); }
      match result {
        case OcppFailure(code, description) =>
          var fault := SendErrorFrame(id, code, description);
          FinishReply(id, fault, start, SendError(ep, net, |start|, id, code, description));
        case OtherFailure(description) =>
          var fault := SendErrorFrame(id, INTERNAL_ERROR, description);
          FinishReply(id, fault, start, SendError(ep, net, |start|, id, INTERNAL_ERROR, description));
        case NoConfirmation =>
          var _ := SendErrorFrame(id, GENERIC_ERROR, "empty confirmation");
        case Confirmation(payload) =>
          var fault := SendResultFrame(id, payload);
          FinishReply(id, fault, start, SendResponse(ep, net, |start|, id, payload));
      }
    }

    method HandleIncomingRequest(call: Message)
      requires call.Call?
      modifies this
      ensures log == old(log) + HandleRequest(ep, role, net, |old(log)|, call)
      ensures Replyable(ep, call.id) && Supported(ep, call.action) ==>
        if HasHandler(ep, role, call.action) then
          IsReplyTo(ep, net, |old(log)|, call.id, role.handle(call.action, call.payload), log[|old(log)|..])
        else OneError(net, |old(log)|, call.id, "NotSupported", log[|old(log)|..])
    {
      if Replyable(ep, call.id) && Supported(ep, call.action) {
        RequestRouted(ep, role, net, |log|, call);
      }
      var profile := GetProfileForFeature(ep, call.action);
      if profile.None? {
        var _ := SendErrorFrame(call.id, NOT_IMPLEMENTED, "no handler");
        return;
      }
      if profile.value.name in GROUPS && profile.value.name !in role.registered {
        var _ := SendErrorFrame(call.id, NOT_SUPPORTED, "unsupported action");
        return;
      }
      if call.action !in role.actions {
        var _ := SendErrorFrame(call.id, NOT_SUPPORTED, "unsupported action");
        return;
      }
      SendReply(call.id, role.handle(call.action, call.payload));
    }

    /** ocppMessageHandler; completed is what the dispatcher is told to complete. */
    method OcppMessageHandler(pending: Option<Bundle>, arr: Frame) returns (completed: Option<Message>)
      modifies this
      ensures log == old(log) + Handle(ep, role, net, |old(log)|, pending, arr)
      ensures completed == Completes(ep, pending, arr)
    {
      completed := None;
      match ParseMessage(ep, pending, arr) {
        case Malformed(err) =>
          if err.id != "" {
            var _ := SendErrorFrame(err.id, err.code, err.description);
          }
        case Nothing =>
        case Message(m) =>
          if m.Call? {
            HandleIncomingRequest(m);
          } else {
            completed := Some(m);
          }
      }
    }
  }
}
