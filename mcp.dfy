/**
 * The message envelope passed between pipeline stages (`MCPMessage`).
 *
 * An envelope is six fields: sender, receiver, type, trace id, payload and
 * timestamp. Construction validates its arguments and, instead of raising,
 * falls back to a well-formed `CREATION_ERROR` envelope. The pure function
 * `Create` states what construction yields; the class `MCPMessage` is the
 * object the source builds, whose attributes mirror its `message` dict.
 * The generated trace id and the wall-clock time are parameters (`freshId`,
 * `clock`).
 */
module Mcp {
  import opened Values

  /** The six keys every envelope dict carries, in the order `is_valid` checks them. */
  const RequiredFieldList: seq<string> := ["sender", "receiver", "type", "trace_id", "payload", "timestamp"]
  const RequiredFields: set<string> := set f | f in RequiredFieldList


  datatype Envelope = Envelope(
    sender: string,
    receiver: string,
    msgType: string,
    traceId: Value,
    payload: map<string, Value>,
    timestamp: string)

  /** `isinstance(v, str) and v.strip()` */
  predicate NonBlankStr(v: Value) {
    v.Str? && Strip(v.s) != ""
  }

  /** The constructor's four argument checks all pass. */
  predicate ValidArguments(sender: Value, receiver: Value, msgType: Value, payload: Value) {
    NonBlankStr(sender) && NonBlankStr(receiver) && NonBlankStr(msgType) && payload.Dict?
  }

  /** The `ValueError` the constructor's checks raise; the first failing check wins. */
  function ArgumentError(sender: Value, receiver: Value, msgType: Value, payload: Value): (err: Option<PyError>)
    ensures err.None? <==> ValidArguments(sender, receiver, msgType, payload)
    ensures err.Some? ==> err.value.kind == "ValueError"
  {
    if !NonBlankStr(sender) then Some(PyError("ValueError", "sender must be a non-empty string"))
    else if !NonBlankStr(receiver) then Some(PyError("ValueError", "receiver must be a non-empty string"))
    else if !NonBlankStr(msgType) then Some(PyError("ValueError", "msg_type must be a non-empty string"))
    else if !payload.Dict? then Some(PyError("ValueError", "payload must be a dictionary"))
    else None
  }

  /** A literal without surrounding whitespace passes the constructor's check and is kept as is. */
  lemma NonBlankLiteral(s: string)
    requires s != [] && IsStripped(s)
    ensures NonBlankStr(Str(s)) && Strip(s) == s
  {
    StrippedIsFixpoint(s);
  }

  /** Sender, receiver and type are non-empty and carry no surrounding whitespace. */
  predicate WellFormed(e: Envelope) {
    && e.sender != "" && IsStripped(e.sender)
    && e.receiver != "" && IsStripped(e.receiver)
    && e.msgType != "" && IsStripped(e.msgType)
  }

  /** The message types `is_error_message` reports as errors. */
  predicate IsErrorType(t: string) {
    t == "ERROR" || t == "CREATION_ERROR" || t == "CONVERSION_ERROR"
  }

  predicate IsError(e: Envelope) {
    IsErrorType(e.msgType)
  }

  /** The payload of the `CREATION_ERROR` fallback: the error text and the
      constructor's arguments. */
  function CreationErrorPayload(err: PyError, sender: Value, receiver: Value, msgType: Value, payload: Value, traceId: Value): map<string, Value> {
    map["error" := Str(err.message),
        "original_params" := Dict(map["sender" := sender, "receiver" := receiver, "msg_type" := msgType,
                                      "payload" := payload, "trace_id" := traceId])]
  }

  /** What `MCPMessage(sender, receiver, msg_type, payload, trace_id)` holds once built. */
  function Create(sender: Value, receiver: Value, msgType: Value, payload: Value, traceId: Value,
                  freshId: string, clock: string): (e: Envelope)
    ensures ValidArguments(sender, receiver, msgType, payload) ==>
      && e.sender == Strip(sender.s) && e.receiver == Strip(receiver.s) && e.msgType == Strip(msgType.s)
      && e.payload == payload.entries
      && e.traceId == (if Truthy(traceId) then traceId else Str(freshId))
    ensures !ValidArguments(sender, receiver, msgType, payload) ==>
      && e.sender == "SYSTEM" && e.receiver == "ERROR_HANDLER" && e.msgType == "CREATION_ERROR"
      && "error" in e.payload && e.payload["error"].Str?
      && e.traceId == Str(freshId)
    ensures e.timestamp == clock + "Z"
    ensures WellFormed(e)
    ensures freshId != "" ==> Truthy(e.traceId)
  {
    match ArgumentError(sender, receiver, msgType, payload)
    case None =>
      StripEmptyIffBlank(sender.s);
      Envelope(Strip(sender.s), Strip(receiver.s), Strip(msgType.s),
               if Truthy(traceId) then traceId else Str(freshId), payload.entries, clock + "Z")
    case Some(err) =>
      Envelope("SYSTEM", "ERROR_HANDLER", "CREATION_ERROR", Str(freshId),
               CreationErrorPayload(err, sender, receiver, msgType, payload, traceId), clock + "Z")
  }

  /** Creating with a literal type: whenever sender and receiver pass their
      checks, the envelope keeps the type and the payload unchanged. */
  lemma CreateWithType(sender: Value, receiver: Value, t: string, payload: map<string, Value>, traceId: Value,
                       freshId: string, clock: string)
    requires t != "" && IsStripped(t)
    ensures var e := Create(sender, receiver, Str(t), Dict(payload), traceId, freshId, clock);
      NonBlankStr(sender) && NonBlankStr(receiver) ==>
        && e.sender == Strip(sender.s) && e.receiver == Strip(receiver.s) && e.msgType == t
        && e.payload == payload && e.traceId == (if Truthy(traceId) then traceId else Str(freshId))
  {
    NonBlankLiteral(t);
  }

  /** The dict form (`self.message`, and what `to_dict` copies). */
  function AsDict(e: Envelope): (m: map<string, Value>)
    ensures m.Keys == RequiredFields
  {
    map["sender" := Str(e.sender), "receiver" := Str(e.receiver), "type" := Str(e.msgType),
        "trace_id" := e.traceId, "payload" := Dict(e.payload), "timestamp" := Str(e.timestamp)]
  }

  /** The dict form loses nothing: two envelopes with the same dict are the same. */
  lemma AsDictLossless(a: Envelope, b: Envelope)
    requires AsDict(a) == AsDict(b)
    ensures a == b
  {
    assert AsDict(a)["sender"] == AsDict(b)["sender"];
    assert AsDict(a)["receiver"] == AsDict(b)["receiver"];
    assert AsDict(a)["type"] == AsDict(b)["type"];
    assert AsDict(a)["trace_id"] == AsDict(b)["trace_id"];
    assert AsDict(a)["payload"] == AsDict(b)["payload"];
    assert AsDict(a)["timestamp"] == AsDict(b)["timestamp"];
  }

  /** The payload after `add_metadata(key, value)`. A `metadata` entry that is
      not a dict makes the item assignment raise, which is swallowed. */
  function WithMetadata(p: map<string, Value>, key: string, value: Value): (r: map<string, Value>)
    ensures forall k :: k in p && k != "metadata" ==> k in r && r[k] == p[k]
    ensures forall k :: k in r && k != "metadata" ==> k in p
    ensures "metadata" in p && !p["metadata"].Dict? ==> r == p
    ensures "metadata" !in p || p["metadata"].Dict? ==>
      && "metadata" in r && r["metadata"].Dict?
      && key in r["metadata"].entries && r["metadata"].entries[key] == value
      && (forall k :: k != key && "metadata" in p && k in p["metadata"].entries ==>
            k in r["metadata"].entries && r["metadata"].entries[k] == p["metadata"].entries[k])
      && (forall k :: k in r["metadata"].entries && k != key ==> "metadata" in p && k in p["metadata"].entries)
  {
    var p' := if "metadata" !in p then p["metadata" := Dict(map[])] else p;
    match p'["metadata"]
    case Dict(md) => p'["metadata" := Dict(md[key := value])]
    case _ => p'
  }

  /** The payload `create_error_message` builds from an exception. */
  function ErrorPayload(error: PyError): map<string, Value> {
    map["error" := Str(error.message), "error_type" := Str(error.kind), "severity" := Str("ERROR")]
  }

  /** `MCPMessage.create_error_message(error, sender, receiver, trace_id)` */
  function ErrorMessage(error: PyError, freshId: string, clock: string,
                        sender: Value := Str("SYSTEM"), receiver: Value := Str("ERROR_HANDLER"),
                        traceId: Value := Null): (e: Envelope)
    ensures IsError(e)
    ensures NonBlankStr(sender) && NonBlankStr(receiver) ==>
      && e.msgType == "ERROR"
      && e.payload.Keys == {"error", "error_type", "severity"}
      && e.payload["error"] == Str(error.message)
      && e.payload["error_type"] == Str(error.kind)
      && e.payload["severity"] == Str("ERROR")
      && e.traceId == (if Truthy(traceId) then traceId else Str(freshId))
  {
    CreateWithType(sender, receiver, "ERROR", ErrorPayload(error), traceId, freshId, clock);
    Create(sender, receiver, Str("ERROR"), Dict(ErrorPayload(error)), traceId, freshId, clock)
  }

  /** With the default sender and receiver, the error factory never falls back. */
  lemma DefaultErrorMessageIsError(error: PyError, freshId: string, clock: string, traceId: Value)
    ensures var e := ErrorMessage(error, freshId, clock, traceId := traceId);
      e.msgType == "ERROR" && e.sender == "SYSTEM" && e.receiver == "ERROR_HANDLER"
      && e.payload["severity"] == Str("ERROR")
  {
    StrippedIsFixpoint("SYSTEM");
    StrippedIsFixpoint("ERROR_HANDLER");
  }

  /** `MCPMessage.create_success_message(sender, receiver, data, trace_id)`; `data` is not checked. */
  function SuccessMessage(sender: Value, receiver: Value, data: Value, traceId: Value,
                          freshId: string, clock: string): (e: Envelope)
    ensures IsError(e) <==> !(NonBlankStr(sender) && NonBlankStr(receiver))
    ensures NonBlankStr(sender) && NonBlankStr(receiver) ==>
      && e.msgType == "SUCCESS"
      && e.payload.Keys == {"status", "data"}
      && e.payload["status"] == Str("success") && e.payload["data"] == data
      && e.traceId == (if Truthy(traceId) then traceId else Str(freshId))
  {
    var payload := map["status" := Str("success"), "data" := data];
    CreateWithType(sender, receiver, "SUCCESS", payload, traceId, freshId, clock);
    Create(sender, receiver, Str("SUCCESS"), Dict(payload), traceId, freshId, clock)
  }

  class MCPMessage {
    var message: map<string, Value>
    var sender: string
    var receiver: string
    var msgType: string
    var traceId: Value
    var payload: map<string, Value>
    var timestamp: string

    /** The envelope the attributes describe. */
    function Env(): Envelope
      reads this
    {
      Envelope(sender, receiver, msgType, traceId, payload, timestamp)
    }

    /** The attributes mirror the `message` dict. */
    ghost predicate Valid()
      reads this
    {
      message == AsDict(Env())
    }

    /** `__init__`: build the dict (or the `CREATION_ERROR` dict when a check
        fails), then copy each attribute out of it. */
    constructor (sender: Value, receiver: Value, msgType: Value, payload: Value, traceId: Value,
                 freshId: string, clock: string)
      ensures Valid()
      ensures Env() == Create(sender, receiver, msgType, payload, traceId, freshId, clock)
    {
      var m: map<string, Value>;
      match ArgumentError(sender, receiver, msgType, payload) {
        case None =>
          m := map["sender" := Str(Strip(sender.s)), "receiver" := Str(Strip(receiver.s)),
                   "type" := Str(Strip(msgType.s)),
                   "trace_id" := if Truthy(traceId) then traceId else Str(freshId),
                   "payload" := payload, "timestamp" := Str(clock + "Z")];
        case Some(err) =>
          m := map["sender" := Str("SYSTEM"), "receiver" := Str("ERROR_HANDLER"),
                   "type" := Str("CREATION_ERROR"), "trace_id" := Str(freshId),
                   "payload" := Dict(CreationErrorPayload(err, sender, receiver, msgType, payload, traceId)),
                   "timestamp" := Str(clock + "Z")];
      }
      message := m;
      this.sender := m["sender"].s;
      this.receiver := m["receiver"].s;
      this.msgType := m["type"].s;
      this.traceId := m["trace_id"];
      this.payload := m["payload"].entries;
      this.timestamp := m["timestamp"].s;
    }

    /** `to_dict`: a copy of the message dict. */
    method ToDict() returns (d: map<string, Value>)
      ensures d == message
      ensures Valid() ==> d.Keys == RequiredFields && d == AsDict(Env())
    {
      d := message;
    }

    /** `is_valid`: every required key is present. */
    function IsValid(): (r: bool)
      reads this
      ensures Valid() ==> r
    {
      forall f :: f in RequiredFieldList ==> f in message
    }

    /** `is_error_message` */
    function IsErrorMessage(): (r: bool)
      reads this
      ensures r <==> IsError(Env())
    {
      msgType in ["ERROR", "CREATION_ERROR", "CONVERSION_ERROR"]
    }

    /** `add_metadata(key, value)`: updates the payload in place; the payload
        object is shared with `message["payload"]`, so the dict sees it too. */
    method AddMetadata(key: string, value: Value)
      requires Valid()
      modifies this
      ensures Valid()
      ensures payload == WithMetadata(old(payload), key, value)
      ensures sender == old(sender) && receiver == old(receiver) && msgType == old(msgType)
      ensures traceId == old(traceId) && timestamp == old(timestamp)
    {
      if "metadata" !in payload {
        payload := payload["metadata" := Dict(map[])];
      }
      match payload["metadata"] {
        case Dict(md) =>
          payload := payload["metadata" := Dict(md[key := value])];
        case _ =>
      }
      message := message["payload" := Dict(payload)];
    }

    /** `create_error_message` */
    static method CreateErrorMessage(error: PyError, freshId: string, clock: string,
                                     sender: Value := Str("SYSTEM"), receiver: Value := Str("ERROR_HANDLER"),
                                     traceId: Value := Null)
      returns (m: MCPMessage)
      ensures fresh(m) && m.Valid()
      ensures m.Env() == ErrorMessage(error, freshId, clock, sender, receiver, traceId)
    {
      m := new MCPMessage(sender, receiver, Str("ERROR"), Dict(ErrorPayload(error)), traceId, freshId, clock);
    }

    /** `create_success_message` */
    static method CreateSuccessMessage(sender: Value, receiver: Value, data: Value, traceId: Value,
                                       freshId: string, clock: string)
      returns (m: MCPMessage)
      ensures fresh(m) && m.Valid()
      ensures m.Env() == SuccessMessage(sender, receiver, data, traceId, freshId, clock)
    {
      m := new MCPMessage(sender, receiver, Str("SUCCESS"),
                          Dict(map["status" := Str("success"), "data" := data]), traceId, freshId, clock);
    }
  }
}
