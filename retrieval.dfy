/**
 * The retrieval agent (`RetrievalAgent`): turns an incoming query envelope,
 * given as its dict form, into a `RETRIEVAL_RESULT` or `ERROR` envelope
 * addressed from `RetrievalAgent` to `LLMResponseAgent`.
 *
 * The agent only holds a reference to a store and calls it duck-typed, so
 * the store is described by what the agent can observe of it
 * (`StoreHandle`); `HandleOf` gives that description for a `VectorStore`.
 */
module Retrieval {
  import opened Values
  import opened Mcp
  import opened VectorStores

  /** What `validate_vector_store` sees when it asks for statistics. */
  datatype StatsProbe = NoGetStats | StatsRaised | StatsReturned(stats: Value)

  /** The store as the agent sees it: its class name, its `retrieve` method
      (absent, or a call that returns results or raises) and `get_stats`. */
  datatype StoreHandle = StoreHandle(
    typeName: string,
    retrieve: Option<string -> Result<seq<Hit>>>,
    stats: StatsProbe)

  /** The observable behaviour of a `VectorStore`: `retrieve` with the default
      `top_k` of 3 never raises, and `get_stats` returns its counts. */
  function HandleOf(store: VectorStore): StoreHandle
    reads store
  {
    var encode, search, chunks, index := store.encode, store.search, store.textChunks, store.index;
    StoreHandle("VectorStore", Some(q => Ok(Results(encode, search, chunks, index, q, 3))),
                StatsReturned(store.GetStats()))
  }

  /** Python's `key in v` for a value that supports it: a dict key, a list
      element or a substring. */
  predicate Iterable(v: Value) {
    v.Str? || v.List? || v.Dict?
  }

  predicate In(key: string, v: Value)
    requires Iterable(v)
  {
    match v
    case Str(s) => Contains(s, key)
    case List(items) => Str(key) in items
    case Dict(entries) => key in entries
  }

  /** The query the message carries, if it has a dict payload with a `query` key. */
  function QueryValue(msg: map<string, Value>): (q: Value)
    ensures q != Str("") ==>
      "payload" in msg && msg["payload"].Dict? && "query" in msg["payload"].entries
      && q == msg["payload"].entries["query"]
  {
    if "payload" in msg && msg["payload"].Dict? && "query" in msg["payload"].entries
    then msg["payload"].entries["query"]
    else Str("")
  }

  /** The outcome of `handle_query`'s guard checks: the accepted query string,
      or the exception raised with the value `query` held at that moment. */
  datatype Parsed = Accepted(query: string) | Rejected(echo: Value, error: PyError)

  /** The shape checks of `handle_query` on a dict message. */
  function ParseQuery(msg: map<string, Value>): (r: Parsed)
    ensures r.Accepted? <==> NonBlankStr(QueryValue(msg))
    ensures r.Accepted? ==> QueryValue(msg) == Str(r.query)
    ensures r.Rejected? ==> r.echo == QueryValue(msg)
    ensures r.Rejected? ==> r.error.kind == "ValueError" || r.error.kind == "TypeError"
    ensures r.Rejected? ==>
      (r.error.kind == "TypeError" <==>
         "payload" in msg && !msg["payload"].Dict? && (!Iterable(msg["payload"]) || In("query", msg["payload"])))
  {
    if "payload" !in msg then
      Rejected(Str(""), PyError("ValueError", "mcp_msg must contain 'payload' key"))
    else
      var p := msg["payload"];
      if !Iterable(p) then
        Rejected(Str(""), PyError("TypeError", "argument of type '" + TypeName(p) + "' is not iterable"))
      else if !In("query", p) then
        Rejected(Str(""), PyError("ValueError", "payload must contain 'query' key"))
      else
        match p
        case Str(_) => Rejected(Str(""), PyError("TypeError", "string indices must be integers, not 'str'"))
        case List(_) => Rejected(Str(""), PyError("TypeError", "list indices must be integers or slices, not str"))
        case Dict(entries) =>
          var query := entries["query"];
          if !Truthy(query) || !query.Str? || Strip(query.s) == "" then
            Rejected(query, PyError("ValueError", "Query must be a non-empty string"))
          else
            Accepted(query.s)
  }

  /** How the try block of `handle_query` ends: the original query and the
      store's results, or the exception with the value `query` held. */
  datatype Outcome = Retrieved(query: string, hits: seq<Hit>) | Raised(echo: Value, error: PyError)

  /** The try block of `handle_query`: the checks, then the call of `retrieve`
      on the stripped query. */
  function Attempt(store: StoreHandle, msg: map<string, Value>): (o: Outcome)
    ensures o.Retrieved? <==>
      ParseQuery(msg).Accepted? && store.retrieve.Some? && store.retrieve.value(Strip(ParseQuery(msg).query)).Ok?
    ensures o.Retrieved? ==>
      && o.query == ParseQuery(msg).query
      && o.hits == store.retrieve.value(Strip(o.query)).value
    ensures o.Raised? ==> o.echo == QueryValue(msg)
  {
    match ParseQuery(msg)
    case Rejected(echo, error) => Raised(echo, error)
    case Accepted(query) =>
      match store.retrieve
      case None => Raised(Str(query), PyError("AttributeError", "'" + store.typeName + "' object has no attribute 'retrieve'"))
      case Some(retrieve) =>
        match retrieve(Strip(query))
        case Ok(hits) => Retrieved(query, hits)
        case Err(error) => Raised(Str(query), error)
  }

  /** The `text` fields of the results, in order (the first comprehension). */
  function Texts(hits: seq<Hit>): seq<Value> {
    seq(|hits|, i requires 0 <= i < |hits| => Str(hits[i].text))
  }

  /** The `distance` fields of the results, in order (the second comprehension). */
  function Distances(hits: seq<Hit>): seq<Value> {
    seq(|hits|, i requires 0 <= i < |hits| => Num(hits[i].distance))
  }

  /** The payload of a `RETRIEVAL_RESULT`; `distances` only when there are results. */
  function ResultPayload(query: string, hits: seq<Hit>): map<string, Value> {
    var base := map["retrieved_context" := List(Texts(hits)), "query" := Str(query), "num_results" := Num(|hits|)];
    if hits != [] then base["distances" := List(Distances(hits))] else base
  }

  /** The payload of the `ERROR` envelope the agent sends. */
  function FailurePayload(echo: Value, error: PyError): map<string, Value> {
    map["retrieved_context" := List([]), "query" := echo, "error" := Str(error.message), "error_type" := Str(error.kind)]
  }

  /** The envelope a pipeline stage of this agent sends: from `RetrievalAgent`
      to `LLMResponseAgent`, carrying the incoming message's trace id. */
  function Reply(msg: map<string, Value>, msgType: string, payload: map<string, Value>,
                 freshId: string, clock: string): (e: Envelope)
    requires msgType != "" && IsStripped(msgType)
    ensures e.sender == "RetrievalAgent" && e.receiver == "LLMResponseAgent"
    ensures e.msgType == msgType && e.payload == payload
    ensures e.traceId == (if Truthy(Get(msg, "trace_id")) then Get(msg, "trace_id") else Str(freshId))
  {
    NonBlankLiteral("RetrievalAgent");
    NonBlankLiteral("LLMResponseAgent");
    CreateWithType(Str("RetrievalAgent"), Str("LLMResponseAgent"), msgType, payload, Get(msg, "trace_id"), freshId, clock);
    Create(Str("RetrievalAgent"), Str("LLMResponseAgent"), Str(msgType), Dict(payload), Get(msg, "trace_id"), freshId, clock)
  }

  /** `handle_query(mcp_msg)` for a dict message: never raises. */
  function HandleQuery(store: StoreHandle, msg: map<string, Value>, freshId: string, clock: string): (e: Envelope)
    ensures e.sender == "RetrievalAgent" && e.receiver == "LLMResponseAgent"
    ensures e.traceId == (if Truthy(Get(msg, "trace_id")) then Get(msg, "trace_id") else Str(freshId))
    ensures e.msgType == "RETRIEVAL_RESULT" || e.msgType == "ERROR"
    ensures IsError(e) <==> Attempt(store, msg).Raised?
  {
    match Attempt(store, msg)
    case Retrieved(query, hits) => Reply(msg, "RETRIEVAL_RESULT", ResultPayload(query, hits), freshId, clock)
    case Raised(echo, error) => Reply(msg, "ERROR", FailurePayload(echo, error), freshId, clock)
  }

  /** A successful query: the result lists the store's texts in its order,
      counts them, echoes the unstripped query, and has `distances` exactly
      when there are results. */
  lemma SuccessfulQuery(store: StoreHandle, msg: map<string, Value>, freshId: string, clock: string)
    requires ParseQuery(msg).Accepted? && store.retrieve.Some?
    requires store.retrieve.value(Strip(ParseQuery(msg).query)).Ok?
    ensures var e := HandleQuery(store, msg, freshId, clock);
      var hits := store.retrieve.value(Strip(ParseQuery(msg).query)).value;
      && e.msgType == "RETRIEVAL_RESULT"
      && e.payload["query"] == QueryValue(msg)
      && e.payload["retrieved_context"].List?
      && |e.payload["retrieved_context"].items| == |hits|
      && (forall i :: 0 <= i < |hits| ==> e.payload["retrieved_context"].items[i] == Str(hits[i].text))
      && e.payload["num_results"] == Num(|e.payload["retrieved_context"].items|)
      && ("distances" in e.payload <==> hits != [])
      && (hits != [] ==> e.payload["distances"].List? && |e.payload["distances"].items| == |hits|)
      && (hits != [] ==> forall i :: 0 <= i < |hits| ==> e.payload["distances"].items[i] == Num(hits[i].distance))
      && e.payload.Keys <= {"retrieved_context", "query", "num_results", "distances"}
  {
  }

  /** A failed query: an `ERROR` envelope with no context, the query as far
      as it was read, and the exception's text and class. */
  lemma FailedQuery(store: StoreHandle, msg: map<string, Value>, freshId: string, clock: string)
    requires Attempt(store, msg).Raised?
    ensures var e := HandleQuery(store, msg, freshId, clock);
      var o := Attempt(store, msg);
      && e.msgType == "ERROR"
      && e.payload.Keys == {"retrieved_context", "query", "error", "error_type"}
      && e.payload["retrieved_context"] == List([])
      && e.payload["query"] == QueryValue(msg)
      && e.payload["error"] == Str(o.error.message)
      && e.payload["error_type"] == Str(o.error.kind)
  {
  }

  /** A dict message with no payload, no `query` key in a dict payload, or a
      query that is empty, not a string or only whitespace, gets a `ValueError` reply. */
  lemma MalformedQueryIsValueError(store: StoreHandle, msg: map<string, Value>, freshId: string, clock: string)
    requires || "payload" !in msg
             || (msg["payload"].Dict? && "query" !in msg["payload"].entries)
             || (msg["payload"].Dict? && "query" in msg["payload"].entries
                 && !NonBlankStr(msg["payload"].entries["query"]))
    ensures var e := HandleQuery(store, msg, freshId, clock);
      e.msgType == "ERROR" && e.payload["error_type"] == Str("ValueError")
      && e.payload["retrieved_context"] == List([])
  {
    FailedQuery(store, msg, freshId, clock);
  }

  /** The agent over a `VectorStore`: an accepted query is answered with a
      `RETRIEVAL_RESULT` holding at most three texts, each one a stored chunk. */
  lemma VectorStoreAnswersFromChunks(store: VectorStore, msg: map<string, Value>, freshId: string, clock: string)
    requires ParseQuery(msg).Accepted?
    ensures var e := HandleQuery(HandleOf(store), msg, freshId, clock);
      && e.msgType == "RETRIEVAL_RESULT"
      && e.payload["retrieved_context"].List?
      && |e.payload["retrieved_context"].items| <= 3
      && forall v :: v in e.payload["retrieved_context"].items ==> v.Str? && v.s in store.textChunks
  {
    var h := HandleOf(store);
    var q := Strip(ParseQuery(msg).query);
    var hits := Results(store.encode, store.search, store.textChunks, store.index, q, 3);
    assert h.retrieve.value(q) == Ok(hits);
    SuccessfulQuery(h, msg, freshId, clock);
    var items := HandleQuery(h, msg, freshId, clock).payload["retrieved_context"].items;
    forall v | v in items
      ensures v.Str? && v.s in store.textChunks
    {
      var i :| 0 <= i < |items| && items[i] == v;
      assert hits[i] in hits;
    }
  }

  /** `validate_vector_store`: false when `retrieve` is missing or asking for
      statistics raises (no `get_stats` result, or one without a
      `total_documents` entry); the count itself is only reported. */
  function ValidateVectorStore(store: StoreHandle): (ok: bool)
    ensures ok <==>
      store.retrieve.Some?
      && (store.stats.NoGetStats?
          || (store.stats.StatsReturned? && store.stats.stats.Dict? && "total_documents" in store.stats.stats.entries))
  {
    if store.retrieve.None? then false
    else
      match store.stats
      case NoGetStats => true
      case StatsRaised => false
      case StatsReturned(stats) => stats.Dict? && "total_documents" in stats.entries
  }

  /** Every `VectorStore` validates, an empty one included. */
  lemma VectorStoreValidates(store: VectorStore)
    ensures ValidateVectorStore(HandleOf(store))
  {
  }

  /** The `ERROR` envelope sent when validation fails. */
  function ValidationFailure(msg: Value, freshId: string, clock: string): (e: Envelope)
    ensures e.msgType == "ERROR" && e.sender == "RetrievalAgent" && e.receiver == "LLMResponseAgent"
    ensures e.payload == FailurePayload(Str(""), PyError("ValidationError", "Vector store validation failed"))
    ensures e.traceId == (if msg.Dict? && Truthy(Get(msg.entries, "trace_id")) then Get(msg.entries, "trace_id") else Str(freshId))
  {
    var trace := if msg.Dict? then Get(msg.entries, "trace_id") else Null;
    NonBlankLiteral("RetrievalAgent");
    NonBlankLiteral("LLMResponseAgent");
    CreateWithType(Str("RetrievalAgent"), Str("LLMResponseAgent"), "ERROR",
                   FailurePayload(Str(""), PyError("ValidationError", "Vector store validation failed")),
                   trace, freshId, clock);
    Create(Str("RetrievalAgent"), Str("LLMResponseAgent"), Str("ERROR"),
           Dict(FailurePayload(Str(""), PyError("ValidationError", "Vector store validation failed"))),
           trace, freshId, clock)
  }

  /** `process_query_with_validation(mcp_msg)`. Once validation passes, a
      message that is not a dict reaches `mcp_msg.get` inside the handler's
      `except` clause and the `AttributeError` escapes. */
  function ProcessQueryWithValidation(store: StoreHandle, msg: Value, freshId: string, clock: string): (r: Result<Envelope>)
    ensures !ValidateVectorStore(store) ==>
      && r == Ok(ValidationFailure(msg, freshId, clock))
      && r.value.msgType == "ERROR" && r.value.sender == "RetrievalAgent" && r.value.receiver == "LLMResponseAgent"
      && r.value.payload["query"] == Str("") && r.value.payload["error_type"] == Str("ValidationError")
      && r.value.payload["retrieved_context"] == List([])
      && r.value.traceId == (if msg.Dict? && Truthy(Get(msg.entries, "trace_id")) then Get(msg.entries, "trace_id") else Str(freshId))
    ensures ValidateVectorStore(store) && msg.Dict? ==> r == Ok(HandleQuery(store, msg.entries, freshId, clock))
    ensures ValidateVectorStore(store) && !msg.Dict? ==> r.Err? && r.error.kind == "AttributeError"
  {
    if !ValidateVectorStore(store) then
      Ok(ValidationFailure(msg, freshId, clock))
    else if msg.Dict? then
      Ok(HandleQuery(store, msg.entries, freshId, clock))
    else
      Err(PyError("AttributeError", "'" + TypeName(msg) + "' object has no attribute 'get'"))
  }

  /** The user interface's query path: the dict form of a `QUERY` envelope
      from `UI` is answered with the same trace id, and a whitespace-only
      question gets a `ValueError` reply. */
  lemma UiQueryKeepsTrace(store: StoreHandle, question: string, uiId: string, uiClock: string,
                          freshId: string, clock: string)
    requires uiId != ""
    ensures var query := Create(Str("UI"), Str("RetrievalAgent"), Str("QUERY"),
                                Dict(map["query" := Str(question)]), Null, uiId, uiClock);
      var reply := HandleQuery(store, AsDict(query), freshId, clock);
      && reply.traceId == Str(uiId)
      && (Strip(question) == "" ==> reply.msgType == "ERROR" && reply.payload["error_type"] == Str("ValueError"))
  {
    NonBlankLiteral("UI");
    NonBlankLiteral("RetrievalAgent");
    var payload := map["query" := Str(question)];
    CreateWithType(Str("UI"), Str("RetrievalAgent"), "QUERY", payload, Null, uiId, uiClock);
    var query := Create(Str("UI"), Str("RetrievalAgent"), Str("QUERY"), Dict(payload), Null, uiId, uiClock);
    var msg := AsDict(query);
    assert Get(msg, "trace_id") == Str(uiId);
    if Strip(question) == "" {
      assert msg["payload"] == Dict(payload);
      MalformedQueryIsValueError(store, msg, freshId, clock);
    }
  }
}
