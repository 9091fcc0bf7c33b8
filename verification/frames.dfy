/**
 OCPP-J frames: what ParseMessage accepts and what the Create and Marshal functions build.

 A frame is the array of JSON values; payload encoding and the field validator are parameters
 of an endpoint. Texts of error descriptions are abbreviated.
 */
module Frames {
  import opened Types

  datatype Json =
    | Null
    | Bool(b: bool)
    | Num(n: real)
    | Str(s: string)
    | Arr(elements: seq<Json>)
    | Obj(fields: seq<(string, Json)>)

  type Frame = seq<Json>

  datatype Payload = Payload(feature: string, body: Json)

  datatype Message =
    | Call(id: string, action: string, payload: Payload)
    | CallResult(id: string, payload: Payload)
    | CallError(id: string, code: string, description: string, details: Option<Json>)

  const CALL := 2
  const CALL_RESULT := 3
  const CALL_ERROR := 4

  // ----- Error codes -----

  const NOT_IMPLEMENTED := "NotImplemented"
  const NOT_SUPPORTED := "NotSupported"
  const INTERNAL_ERROR := "InternalError"
  const MESSAGE_TYPE_NOT_SUPPORTED := "MessageTypeNotSupported"
  const PROTOCOL_ERROR := "ProtocolError"
  const SECURITY_ERROR := "SecurityError"
  const PROPERTY_CONSTRAINT_VIOLATION := "PropertyConstraintViolation"
  const OCCURRENCE_CONSTRAINT_VIOLATION := "OccurrenceConstraintViolation"
  const TYPE_CONSTRAINT_VIOLATION := "TypeConstraintViolation"
  const GENERIC_ERROR := "GenericError"
  const FORMAT_VIOLATION_V2 := "FormatViolation"
  const FORMAT_VIOLATION_V16 := "FormationViolation"

  predicate IsErrorCodeValid(code: string) {
    || code == NOT_IMPLEMENTED || code == NOT_SUPPORTED || code == INTERNAL_ERROR
    || code == MESSAGE_TYPE_NOT_SUPPORTED || code == PROTOCOL_ERROR || code == SECURITY_ERROR
    || code == FORMAT_VIOLATION_V16 || code == FORMAT_VIOLATION_V2
    || code == PROPERTY_CONSTRAINT_VIOLATION || code == OCCURRENCE_CONSTRAINT_VIOLATION
    || code == TYPE_CONSTRAINT_VIOLATION || code == GENERIC_ERROR
  }

  /** The codes of both protocol versions, spelled out. */
  lemma ValidCodes(code: string)
    ensures IsErrorCodeValid(code) <==> code in {
        "NotImplemented", "NotSupported", "InternalError", "MessageTypeNotSupported", "ProtocolError",
        "SecurityError", "FormationViolation", "FormatViolation", "PropertyConstraintViolation",
        "OccurrenceConstraintViolation", "TypeConstraintViolation", "GenericError"}
  {
  }

  datatype Dialect = V16 | V2

  function FormatErrorType(d: Dialect): (code: string)
    ensures IsErrorCodeValid(code)
    ensures code == "FormationViolation" <==> d.V16?
    ensures code == "FormatViolation" <==> d.V2?
  {
    match d
    case V16 => FORMAT_VIOLATION_V16
    case V2 => FORMAT_VIOLATION_V2
  }

  /** An ocpp.Error: what goes wrong and the message it concerns, "" if unknown. */
  datatype OcppError = OcppError(code: string, description: string, id: string)

  // ----- Endpoints -----

  datatype Profile = Profile(name: string, features: set<string>)

  /** Libraries: JSON decoding into a feature's types, encoding, and the tags of violated fields. */
  datatype Codec = Codec(
    decodeRequest: (string, Json) -> Option<Payload>,
    decodeResponse: (string, Json) -> Option<Payload>,
    encode: Payload -> Option<Json>,
    violations: Payload -> seq<string>)

  datatype Endpoint = Endpoint(dialect: Dialect, profiles: seq<Profile>, validation: bool, codec: Codec)

  function ProfileFor(profiles: seq<Profile>, feature: string): (r: Option<Profile>)
    ensures r.None? <==> forall i :: 0 <= i < |profiles| ==> feature !in profiles[i].features
    ensures r.Some? ==> r.value in profiles && feature in r.value.features
  {
    if profiles == [] then None
    else if feature in profiles[0].features then Some(profiles[0])
    else ProfileFor(profiles[1..], feature)
  }

  /** The k-th profile is the one a feature belongs to: it has the feature and none before it does. */
  predicate Owns(profiles: seq<Profile>, k: nat, feature: string) {
    && k < |profiles| && feature in profiles[k].features
    && forall j :: 0 <= j < k ==> feature !in profiles[j].features
  }

  lemma {:induction false} OwnerIsFound(profiles: seq<Profile>, k: nat, feature: string)
    requires Owns(profiles, k, feature)
    ensures ProfileFor(profiles, feature) == Some(profiles[k])
    decreases k
  {
    if k > 0 {
      assert profiles[1..][k - 1] == profiles[k];
      forall j | 0 <= j < k - 1 ensures feature !in profiles[1..][j].features {
        assert profiles[1..][j] == profiles[j + 1];
      }
      OwnerIsFound(profiles[1..], k - 1, feature);
    }
  }

  /** The search of GetProfileForFeature returns the first profile that supports the feature. */
  method GetProfileForFeature(ep: Endpoint, feature: string) returns (r: Option<Profile>)
    ensures r == ProfileFor(ep.profiles, feature)
  {
    for k := 0 to |ep.profiles|
      invariant ProfileFor(ep.profiles[k..], feature) == ProfileFor(ep.profiles, feature)
    {
      if feature in ep.profiles[k].features {
        return Some(ep.profiles[k]);
      }
    }
    return None;
  }

  // ----- Validation -----

  const MAX_LENGTH := 36

  function NameTags(s: string): (tags: seq<string>) {
    if s == "" then ["required"] else if |s| > MAX_LENGTH then ["max"] else []
  }

  lemma IdRequired(id: string, rest: seq<string>)
    ensures NameTags(id) + rest == [] <==> 1 <= |id| <= MAX_LENGTH && rest == []
  {
    assert |NameTags(id) + rest| == |NameTags(id)| + |rest|;
  }

  function CodeTags(code: string): (tags: seq<string>) {
    if IsErrorCodeValid(code) then [] else ["errorCode"]
  }

  /** The field tags violated by a message, in the order of its fields. */
  function Violations(ep: Endpoint, m: Message): (tags: seq<string>) {
    match m
    case Call(id, action, payload) => NameTags(id) + NameTags(action) + ep.codec.violations(payload)
    case CallResult(id, payload) => NameTags(id) + ep.codec.violations(payload)
    case CallError(id, code, _, _) => NameTags(id) + CodeTags(code)
  }

  predicate IsBound(tag: string) {
    tag in ["max", "min", "gte", "gt", "lte", "lt"]
  }

  predicate IsKnown(tag: string) {
    tag in {"required", "max", "min", "gte", "gt", "lte", "lt"}
  }

  predicate FirstKnown(tags: seq<string>, k: nat) {
    k < |tags| && IsKnown(tags[k]) && forall j :: 0 <= j < k ==> !IsKnown(tags[j])
  }

  /** The code chosen by errorFromValidation: decided by the first tag it knows. */
  function ViolationCode(tags: seq<string>): (code: string)
    ensures IsErrorCodeValid(code)
  {
    if tags == [] then GENERIC_ERROR
    else if tags[0] == "required" then OCCURRENCE_CONSTRAINT_VIOLATION
    else if IsBound(tags[0]) then PROPERTY_CONSTRAINT_VIOLATION
    else ViolationCode(tags[1..])
  }

  /** The code in words: missing before out of bounds, whichever is found first, else generic. */
  ghost predicate IsCodeFor(tags: seq<string>, code: string) {
    && (forall k: nat :: FirstKnown(tags, k) ==>
          code == if tags[k] == "required" then "OccurrenceConstraintViolation" else "PropertyConstraintViolation")
    && ((forall j :: 0 <= j < |tags| ==> !IsKnown(tags[j])) ==> code == "GenericError")
  }

  lemma {:induction false} ViolationCodeIs(tags: seq<string>)
    ensures IsCodeFor(tags, ViolationCode(tags))
    decreases |tags|
  {
    if tags != [] && !IsKnown(tags[0]) {
      var rest := tags[1..];
      ViolationCodeIs(rest);
      forall k: nat | FirstKnown(tags, k) ensures k > 0 && FirstKnown(rest, k - 1) {
        assert rest[k - 1] == tags[k];
        forall j | 0 <= j < k - 1 ensures !IsKnown(rest[j]) { assert rest[j] == tags[j + 1]; }
      }
      if forall j :: 0 <= j < |tags| ==> !IsKnown(tags[j]) {
        forall j | 0 <= j < |rest| ensures !IsKnown(rest[j]) { assert rest[j] == tags[j + 1]; }
      }
    }
  }

  method ErrorFromValidation(tags: seq<string>, id: string) returns (err: OcppError)
    ensures err.code == ViolationCode(tags) && err.id == id
    ensures IsCodeFor(tags, err.code)
  {
    for k := 0 to |tags|
      invariant ViolationCode(tags[k..]) == ViolationCode(tags)
      invariant forall j :: 0 <= j < k ==> !IsKnown(tags[j])
    {
      if tags[k] == "required" {
        return OcppError(OCCURRENCE_CONSTRAINT_VIOLATION, "required but not found", id);
      }
      if IsBound(tags[k]) {
        return OcppError(PROPERTY_CONSTRAINT_VIOLATION, "out of bounds", id);
      }
    }
    return OcppError(GENERIC_ERROR, "validation failed", id);
  }

  function ViolationError(tags: seq<string>, id: string): (err: OcppError) {
    OcppError(ViolationCode(tags), "validation failed", id)
  }

  // ----- Creating messages -----

  /** Why a message could not be built or sent. */
  datatype Fault = Invalid(tags: seq<string>) | Protocol(err: OcppError) | Unsupported(action: string)

  datatype Created = Ok(message: Message) | Failed(fault: Fault)

  function Checked(ep: Endpoint, m: Message): (r: Created) {
    if ep.validation && Violations(ep, m) != [] then Failed(Invalid(Violations(ep, m))) else Ok(m)
  }

  function CreateCall(ep: Endpoint, request: Payload, id: string): (r: Created) {
    if ProfileFor(ep.profiles, request.feature).None? then Failed(Unsupported(request.feature))
    else Checked(ep, Call(id, request.feature, request))
  }

  function CreateCallResult(ep: Endpoint, confirmation: Payload, id: string): (r: Created) {
    if ProfileFor(ep.profiles, confirmation.feature).None? then
      Failed(Protocol(OcppError(NOT_SUPPORTED, "unsupported action", id)))
    else Checked(ep, CallResult(id, confirmation))
  }

  function CreateCallError(ep: Endpoint, id: string, code: string, description: string, details: Option<Json>): (r: Created) {
    Checked(ep, CallError(id, code, description, details))
  }

  /**
   What can be created: with validation on, exactly messages with an id of 1 to 36 characters,
   a supported feature whose name has 1 to 36 characters and a payload without violations, and
   errors with such an id and a known code. With validation off only the feature counts.
   */
  lemma CreationIff(ep: Endpoint, payload: Payload, id: string,
                    code: string, description: string, details: Option<Json>)
    ensures var supported := ProfileFor(ep.profiles, payload.feature).Some?;
            var fits := 1 <= |id| <= MAX_LENGTH;
            var clean := ep.codec.violations(payload) == [];
            && (CreateCall(ep, payload, id) == Ok(Call(id, payload.feature, payload)) <==>
                  supported && (ep.validation ==> fits && 1 <= |payload.feature| <= MAX_LENGTH && clean))
            && (CreateCallResult(ep, payload, id) == Ok(CallResult(id, payload)) <==>
                  supported && (ep.validation ==> fits && clean))
            && (CreateCallError(ep, id, code, description, details) == Ok(CallError(id, code, description, details)) <==>
                  (ep.validation ==> fits && IsErrorCodeValid(code)))
  {
    IdRequired(payload.feature, ep.codec.violations(payload));
    IdRequired(id, NameTags(payload.feature) + ep.codec.violations(payload));
    IdRequired(id, ep.codec.violations(payload));
    IdRequired(id, CodeTags(code));
    assert NameTags(id) + NameTags(payload.feature) + ep.codec.violations(payload)
        == NameTags(id) + (NameTags(payload.feature) + ep.codec.violations(payload));
  }

  const EMPTY_OBJECT := Obj([])

  /** The array form of a message; None if its payload cannot be encoded. */
  function Marshal(ep: Endpoint, m: Message): (r: Option<Frame>) {
    match m
    case Call(id, action, payload) =>
      var body := ep.codec.encode(payload);
      if body.None? then None else Some([Num(2.0), Str(id), Str(action), body.value])
    case CallResult(id, payload) =>
      var body := ep.codec.encode(payload);
      if body.None? then None else Some([Num(3.0), Str(id), body.value])
    case CallError(id, code, description, details) =>
      Some([Num(4.0), Str(id), Str(code), Str(description),
            if details.None? then EMPTY_OBJECT else details.value])
  }

  /** Integer types, and the fields in the order of the standard. */
  lemma WireForm(ep: Endpoint, m: Message, frame: Frame)
    requires Marshal(ep, m) == Some(frame)
    ensures match m
            case Call(id, action, p) => frame[..3] == [Num(2.0), Str(id), Str(action)] && |frame| == 4
                                        && ep.codec.encode(p) == Some(frame[3])
            case CallResult(id, p) => frame[..2] == [Num(3.0), Str(id)] && |frame| == 3
                                      && ep.codec.encode(p) == Some(frame[2])
            case CallError(id, code, description, details) =>
              && frame[..4] == [Num(4.0), Str(id), Str(code), Str(description)] && |frame| == 5
              && frame[4] == (if details.Some? then details.value else Obj([]))
  {
  }

  // ----- Parsing -----

  datatype Parsed = Message(message: Message) | Nothing | Malformed(err: OcppError)

  /** Go's conversion of a float to an integer. */
  function Truncate(x: real): (n: int) {
    if x >= 0.0 then x.Floor else -((-x).Floor)
  }

  function OrEmpty(raw: Json): (r: Json) {
    if raw.Null? then EMPTY_OBJECT else raw
  }

  function Accepted(ep: Endpoint, m: Message): (r: Parsed) {
    var tags := Violations(ep, m);
    if tags == [] then Message(m) else Malformed(ViolationError(tags, m.id))
  }

  function FormatError(ep: Endpoint, id: string): (r: Parsed) {
    Malformed(OcppError(FormatErrorType(ep.dialect), "invalid message", id))
  }

  function ParseCall(ep: Endpoint, id: string, arr: Frame): (r: Parsed)
    requires |arr| >= 3
  {
    if |arr| != 4 then FormatError(ep, id)
    else if !arr[2].Str? then FormatError(ep, id)
    else
      var action := arr[2].s;
      if ProfileFor(ep.profiles, action).None? then
        Malformed(OcppError(NOT_SUPPORTED, "unsupported feature", id))
      else
        var request := ep.codec.decodeRequest(action, OrEmpty(arr[3]));
        if request.None? then FormatError(ep, id) else Accepted(ep, Call(id, action, request.value))
  }

  function ParseResult(ep: Endpoint, pending: Option<Bundle>, id: string, arr: Frame): (r: Parsed)
    requires |arr| >= 3
  {
    if pending.None? || pending.value.id != id then Nothing
    else
      var response := ep.codec.decodeResponse(pending.value.request.feature, OrEmpty(arr[2]));
      if response.None? then FormatError(ep, id) else Accepted(ep, CallResult(id, response.value))
  }

  function ParseError(ep: Endpoint, pending: Option<Bundle>, id: string, arr: Frame): (r: Parsed)
    requires |arr| >= 3
  {
    if pending.None? || pending.value.id != id then Nothing
    else if |arr| < 4 then FormatError(ep, id)
    else if !arr[2].Str? then FormatError(ep, "")
    else
      var details := if |arr| > 4 && !arr[4].Null? then Some(arr[4]) else None;
      var description := if arr[3].Str? then arr[3].s else "";
      Accepted(ep, CallError(id, arr[2].s, description, details))
  }

  /**
   ParseMessage. The pending request must be of a supported feature, as CreateCall ensures. The
   pending slot is only read.
   */
  function ParseMessage(ep: Endpoint, pending: Option<Bundle>, arr: Frame): (r: Parsed) {
    if |arr| < 3 then FormatError(ep, "")
    else if !arr[0].Num? then FormatError(ep, "")
    else if !arr[1].Str? then FormatError(ep, "")
    else if arr[1].s == "" then FormatError(ep, "")
    else
      var id := arr[1].s;
      var typeId := Truncate(arr[0].n);
      if typeId == CALL then ParseCall(ep, id, arr)
      else if typeId == CALL_RESULT then ParseResult(ep, pending, id, arr)
      else if typeId == CALL_ERROR then ParseError(ep, pending, id, arr)
      else Malformed(OcppError(MESSAGE_TYPE_NOT_SUPPORTED, "invalid message type", id))
  }

  // ----- What parsing promises -----

  /** The id a frame carries, if it has a readable one. */
  function FrameId(arr: Frame): (id: string) {
    if |arr| >= 3 && arr[0].Num? && arr[1].Str? then arr[1].s else ""
  }

  /**
   Whatever the frame: a parsed message has the frame's id and violates nothing, a parse error
   has a valid code and either the frame's id or none, and an answer is only accepted for the
   id that is pending.
   */
  lemma ParseIsSound(ep: Endpoint, pending: Option<Bundle>, arr: Frame)
    ensures match ParseMessage(ep, pending, arr)
            case Message(m) =>
              && m.id == FrameId(arr) && m.id != "" && Violations(ep, m) == []
              && (!m.Call? ==> pending.Some? && pending.value.id == m.id)
            case Malformed(err) => IsErrorCodeValid(err.code) && (err.id == "" || err.id == FrameId(arr))
            case Nothing => pending.None? || pending.value.id != FrameId(arr)
  {
  }

  lemma TruncateRange(x: real, k: nat)
    requires k >= 1
    ensures Truncate(x) == k <==> k as real <= x < k as real + 1.0
  {
  }

  /**
   The type of a frame with an id is decided by ranges, not by the three integers: 2.5 makes a
   CALL, and everything outside [2, 5) is an unsupported type.
   */
  lemma TypeByRange(ep: Endpoint, pending: Option<Bundle>, arr: Frame)
    requires FrameId(arr) != ""
    ensures var n, r := arr[0].n, ParseMessage(ep, pending, arr);
            if 2.0 <= n < 3.0 then r == ParseCall(ep, FrameId(arr), arr)
            else if 3.0 <= n < 4.0 then r == ParseResult(ep, pending, FrameId(arr), arr)
            else if 4.0 <= n < 5.0 then r == ParseError(ep, pending, FrameId(arr), arr)
            else r.Malformed? && r.err.code == MESSAGE_TYPE_NOT_SUPPORTED && r.err.id == FrameId(arr)
  {
    TruncateRange(arr[0].n, CALL);
    TruncateRange(arr[0].n, CALL_RESULT);
    TruncateRange(arr[0].n, CALL_ERROR);
  }

  /** A CALL frame: three or more elements, a type in [2, 3) and an id. */
  predicate IsCall(arr: Frame) {
    FrameId(arr) != "" && 2.0 <= arr[0].n < 3.0
  }

  /** A CALL frame with an id is never ignored, and its parse errors are always attributed to it. */
  lemma CallIsAttributed(ep: Endpoint, pending: Option<Bundle>, arr: Frame)
    requires IsCall(arr)
    ensures match ParseMessage(ep, pending, arr)
            case Message(m) => m.Call? && m.id == FrameId(arr)
            case Malformed(err) => err.id == FrameId(arr) && IsErrorCodeValid(err.code)
            case Nothing => false
  {
    TypeByRange(ep, pending, arr);
  }

  // ----- What is wrong with a frame -----

  function FormatCode(ep: Endpoint): (code: string) {
    if ep.dialect.V16? then "FormationViolation" else "FormatViolation"
  }

  /** A JSON null in the place of a payload stands for an empty one. */
  function Body(raw: Json): (r: Json) {
    if raw == Null then Obj([]) else raw
  }

  /** The code of a CALL frame that cannot be handed to a handler. */
  function CallFlaw(ep: Endpoint, id: string, arr: Frame): (code: Option<string>)
    requires |arr| >= 3
  {
    if |arr| != 4 || !arr[2].Str? then Some(FormatCode(ep))
    else if forall i :: 0 <= i < |ep.profiles| ==> arr[2].s !in ep.profiles[i].features then Some("NotSupported")
    else
      var request := ep.codec.decodeRequest(arr[2].s, Body(arr[3]));
      if request.None? then Some(FormatCode(ep))
      else if |id| > 36 then Some("PropertyConstraintViolation")
      else if arr[2].s == "" then Some("OccurrenceConstraintViolation")
      else if |arr[2].s| > 36 then Some("PropertyConstraintViolation")
      else if ep.codec.violations(request.value) != [] then Some(ViolationCode(ep.codec.violations(request.value)))
      else None
  }

  /** The code of a CALL RESULT for the pending request b that cannot be its response. */
  function ResultFlaw(ep: Endpoint, b: Bundle, arr: Frame): (code: Option<string>)
    requires |arr| >= 3
  {
    var response := ep.codec.decodeResponse(b.request.feature, Body(arr[2]));
    if response.None? then Some(FormatCode(ep))
    else if |b.id| > 36 then Some("PropertyConstraintViolation")
    else if ep.codec.violations(response.value) != [] then Some(ViolationCode(ep.codec.violations(response.value)))
    else None
  }

  /** The code of a CALL ERROR for b that is rejected with its id; one without a code text has none. */
  function ErrorFlaw(ep: Endpoint, b: Bundle, arr: Frame): (code: Option<string>)
    requires |arr| >= 3
  {
    if |arr| < 4 then Some(FormatCode(ep))
    else if !arr[2].Str? then None
    else if |b.id| > 36 then Some("PropertyConstraintViolation")
    else if !IsErrorCodeValid(arr[2].s) then Some("GenericError")
    else None
  }

  /** The code with which a frame that has an id is rejected, if it is. */
  function Flaw(ep: Endpoint, pending: Option<Bundle>, arr: Frame): (code: Option<string>)
    requires FrameId(arr) != ""
  {
    var awaited := pending.Some? && pending.value.id == FrameId(arr);
    if 2.0 <= arr[0].n < 3.0 then CallFlaw(ep, FrameId(arr), arr)
    else if 3.0 <= arr[0].n < 4.0 then (if awaited then ResultFlaw(ep, pending.value, arr) else None)
    else if 4.0 <= arr[0].n < 5.0 then (if awaited then ErrorFlaw(ep, pending.value, arr) else None)
    else Some("MessageTypeNotSupported")
  }

  lemma HeadDecides(rest: seq<string>)
    ensures ViolationCode(["max"] + rest) == "PropertyConstraintViolation"
    ensures ViolationCode(["required"] + rest) == "OccurrenceConstraintViolation"
  {
    assert (["max"] + rest)[0] == "max" && (["required"] + rest)[0] == "required";
  }

  lemma UnknownTag(tag: string)
    requires !IsKnown(tag)
    ensures ViolationCode([tag]) == "GenericError"
  {
    assert [tag][1..] == [];
  }

  /** A violated name decides before everything after it. */
  lemma NameFirst(name: string, rest: seq<string>)
    ensures 1 <= |name| <= 36 ==> NameTags(name) + rest == rest
    ensures |name| > 36 ==>
      NameTags(name) + rest != [] && ViolationCode(NameTags(name) + rest) == "PropertyConstraintViolation"
    ensures name == "" ==>
      NameTags(name) + rest != [] && ViolationCode(NameTags(name) + rest) == "OccurrenceConstraintViolation"
  {
    HeadDecides(rest);
    if 1 <= |name| <= 36 { assert [] + rest == rest; }
  }

  lemma CallFlawIff(ep: Endpoint, id: string, arr: Frame)
    requires |arr| >= 3 && id != ""
    ensures var r, flaw := ParseCall(ep, id, arr), CallFlaw(ep, id, arr);
            && (flaw.Some? ==> r.Malformed? && r.err.code == flaw.value && r.err.id == id)
            && (flaw.None? ==> r == Message(Call(id, arr[2].s, ep.codec.decodeRequest(arr[2].s, Body(arr[3])).value)))
  {
    if |arr| == 4 && arr[2].Str? {
      var request := ep.codec.decodeRequest(arr[2].s, Body(arr[3]));
      if request.Some? {
        var names, tags := NameTags(arr[2].s), ep.codec.violations(request.value);
        NameFirst(arr[2].s, tags);
        NameFirst(id, names + tags);
        assert NameTags(id) + names + tags == NameTags(id) + (names + tags);
      }
    }
  }

  lemma ResultFlawIff(ep: Endpoint, b: Bundle, arr: Frame)
    requires |arr| >= 3 && b.id != ""
    ensures var r, flaw := ParseResult(ep, Some(b), b.id, arr), ResultFlaw(ep, b, arr);
            && (flaw.Some? ==> r.Malformed? && r.err.code == flaw.value && r.err.id == b.id)
            && (flaw.None? ==> r == Message(CallResult(b.id, ep.codec.decodeResponse(b.request.feature, Body(arr[2])).value)))
  {
    var response := ep.codec.decodeResponse(b.request.feature, Body(arr[2]));
    if response.Some? {
      NameFirst(b.id, ep.codec.violations(response.value));
    }
  }

  lemma ErrorFlawIff(ep: Endpoint, b: Bundle, arr: Frame)
    requires |arr| >= 3 && b.id != ""
    ensures var r, flaw := ParseError(ep, Some(b), b.id, arr), ErrorFlaw(ep, b, arr);
            && (flaw.Some? ==> r.Malformed? && r.err.code == flaw.value && r.err.id == b.id)
            && (flaw.None? && !arr[2].Str? ==> r.Malformed? && r.err.code == FormatCode(ep) && r.err.id == "")
            && (flaw.None? && arr[2].Str? ==>
                  r == Message(CallError(b.id, arr[2].s, if arr[3].Str? then arr[3].s else "",
                                         if |arr| > 4 && arr[4] != Null then Some(arr[4]) else None)))
  {
    if |arr| >= 4 && arr[2].Str? {
      NameFirst(b.id, CodeTags(arr[2].s));
      UnknownTag("errorCode");
    }
  }

  /**
   Every frame is decided on the wire: without a readable id it is malformed with the dialect's
   format code and no id; with one it is rejected, with that id, exactly with the code of its flaw.
   */
  lemma MalformedIff(ep: Endpoint, pending: Option<Bundle>, arr: Frame)
    ensures var r := ParseMessage(ep, pending, arr);
            && (FrameId(arr) == "" ==> r.Malformed? && r.err.code == FormatCode(ep) && r.err.id == "")
            && (FrameId(arr) != "" ==>
                  && (r.Malformed? && r.err.id != "" <==> Flaw(ep, pending, arr).Some?)
                  && (Flaw(ep, pending, arr).Some? ==>
                        r.err.code == Flaw(ep, pending, arr).value && r.err.id == FrameId(arr)))
  {
    if FrameId(arr) != "" {
      TypeByRange(ep, pending, arr);
      CallFlawIff(ep, FrameId(arr), arr);
      if pending.Some? && pending.value.id == FrameId(arr) {
        ResultFlawIff(ep, pending.value, arr);
        ErrorFlawIff(ep, pending.value, arr);
      }
    }
  }

  // ----- Round trips: sections 4.2.1 to 4.2.3 of OCPP-J 1.6 -----

  /** A CALL built by a is read back by b, whatever b has pending. */
  lemma CallRoundTrip(a: Endpoint, b: Endpoint, pending: Option<Bundle>, request: Payload, id: string)
    requires a.validation && CreateCall(a, request, id).Ok? && a.codec.encode(request).Some?
    requires ProfileFor(b.profiles, request.feature).Some? && b.codec.violations(request) == []
    requires b.codec.decodeRequest(request.feature, OrEmpty(a.codec.encode(request).value)) == Some(request)
    ensures var call := CreateCall(a, request, id).message;
            ParseMessage(b, pending, Marshal(a, call).value) == Message(call)
  {
    IdRequired(id, NameTags(request.feature) + a.codec.violations(request));
    IdRequired(request.feature, a.codec.violations(request));
  }

  /** A CALL RESULT built by a is read back by b if b has a request of that id pending. */
  lemma CallResultRoundTrip(a: Endpoint, b: Endpoint, pending: Bundle, confirmation: Payload)
    requires a.validation && CreateCallResult(a, confirmation, pending.id).Ok?
    requires a.codec.encode(confirmation).Some? && b.codec.violations(confirmation) == []
    requires b.codec.decodeResponse(pending.request.feature, OrEmpty(a.codec.encode(confirmation).value))
          == Some(confirmation)
    ensures var m := CreateCallResult(a, confirmation, pending.id).message;
            ParseMessage(b, Some(pending), Marshal(a, m).value) == Message(m)
  {
    IdRequired(pending.id, a.codec.violations(confirmation));
  }

  /** The same for a CALL ERROR: absent details become the empty object, all else survives. */
  lemma CallErrorRoundTrip(a: Endpoint, b: Endpoint, pending: Bundle,
                           code: string, description: string, details: Option<Json>)
    requires a.validation && CreateCallError(a, pending.id, code, description, details).Ok?
    requires details.Some? ==> !details.value.Null?
    ensures var m := CreateCallError(a, pending.id, code, description, details).message;
            ParseMessage(b, Some(pending), Marshal(a, m).value)
            == Message(m.(details := Some(if details.None? then EMPTY_OBJECT else details.value)))
  {
    IdRequired(pending.id, CodeTags(code));
  }
}
