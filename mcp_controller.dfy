/**
 * The MCP endpoint: a session store, a JSON-RPC method router, the
 * aggregation of the registered handlers and the decisions of the
 * server-push (SSE) channel.
 *
 * The pure parts (aggregation, routing, the replies) are functions.  The
 * store is the `sessions` field of class `Controller`, whose methods change
 * it as the HTTP handlers do; each method's result and new store are tied
 * to one of the transition functions `Post`, `Get` and `Delete`, and the
 * properties of the endpoint are proved about those.
 */
module McpController {
  import opened JsonRpcModels
  import opened Text
  import opened McpDomainHandler

  const ProtocolVersion: string := "2025-11-25"
  const DefaultServerInfo: ServerInfo := ServerInfo("vault-refinery-mcp", "1.0.0")
  const EventStreamMediaType: string := "text/event-stream"

  // ---------------------------------------------------------------------------
  // Replies

  /** One server-sent event: an optional id, an optional event name and its data. */
  datatype SseEvent = SseEvent(id: Option<string>, name: Option<string>, data: string)

  datatype Body =
    | NoBody
    | PlainText(text: string)
    | Rpc(response: JsonRpcResponse)
    | EventStream(events: seq<SseEvent>)

  /** An HTTP reply: status, the `MCP-Session-Id` header when set, and the body. */
  datatype Reply = Reply(status: int, sessionHeader: Option<string>, body: Body)

  /** A POST either returns a reply or lets an exception escape the controller. */
  datatype PostOutcome = Returned(reply: Reply) | Threw

  // ---------------------------------------------------------------------------
  // Sessions

  datatype SessionData = SessionData(id: string, isInitialized: bool := false, currentEventId: int := 0)

  type Sessions = map<string, SessionData>

  /**
   * Every record is stored under its own id, and no event id has been
   * assigned yet: `currentEventId` is never written after construction.
   */
  predicate ValidStore(sessions: Sessions) {
    forall k :: k in sessions ==> sessions[k].id == k && sessions[k].currentEventId == 0
  }

  /**
   * What a random UUID is assumed to be: neither a stored key nor the id the
   * client supplied.
   */
  predicate FreshId(sessions: Sessions, sessionId: Option<string>, freshId: string) {
    freshId !in sessions && (sessionId.Some? ==> freshId != sessionId.value)
  }

  /** `getSession(sessionId)`: the stored record when the id is known, else a new one under `freshId`. */
  function LookupOrCreate(sessions: Sessions, sessionId: Option<string>, freshId: string): (r: (SessionData, Sessions))
    requires ValidStore(sessions) && FreshId(sessions, sessionId, freshId)
    ensures ValidStore(r.1)
    ensures r.0.id in r.1 && r.1[r.0.id] == r.0
    ensures forall k :: k in sessions ==> k in r.1 && r.1[k] == sessions[k]
    ensures sessionId.Some? && sessionId.value in sessions ==> r.0 == sessions[sessionId.value] && r.1 == sessions
    ensures !(sessionId.Some? && sessionId.value in sessions) ==>
      && r.0.id == freshId
      && !r.0.isInitialized && r.0.currentEventId == 0
      && r.0.id !in sessions
      && r.1.Keys == sessions.Keys + {freshId}
    // an unknown supplied id is not taken over: the new session has another id
    ensures sessionId.Some? && sessionId.value !in sessions ==> r.0.id != sessionId.value && sessionId.value !in r.1
  {
    if sessionId.Some? && sessionId.value in sessions then (sessions[sessionId.value], sessions)
    else
      var session := SessionData(id := freshId);
      (session, sessions[freshId := session])
  }

  // ---------------------------------------------------------------------------
  // Handler aggregation

  /** `domainHandlers.flatMap { it.getTools() }`. */
  function AllTools(handlers: seq<DomainHandler>): (r: seq<Tool>)
    ensures forall i, t :: 0 <= i < |handlers| && t in handlers[i].tools ==> t in r
    ensures forall t :: t in r ==> exists i :: 0 <= i < |handlers| && t in handlers[i].tools
  {
    if handlers == [] then []
    else
      var rest := AllTools(handlers[1..]);
      assert forall i :: 1 <= i < |handlers| ==> handlers[i] == handlers[1..][i - 1];
      handlers[0].tools + rest
  }

  /** The aggregate of two registries placed one after the other is the concatenation of theirs. */
  lemma {:induction false} AllToolsAppend(a: seq<DomainHandler>, b: seq<DomainHandler>)
    ensures AllTools(a + b) == AllTools(a) + AllTools(b)
  {
    if a != [] {
      assert (a + b)[0] == a[0] && (a + b)[1..] == a[1..] + b;
      AllToolsAppend(a[1..], b);
    } else {
      assert a + b == b;
    }
  }

  function CountNamed(tools: seq<Tool>, name: string): nat {
    if tools == [] then 0 else (if tools[0].name == name then 1 else 0) + CountNamed(tools[1..], name)
  }

  lemma {:induction false} CountNamedAppend(a: seq<Tool>, b: seq<Tool>, name: string)
    ensures CountNamed(a + b, name) == CountNamed(a, name) + CountNamed(b, name)
  {
    if a != [] {
      assert (a + b)[0] == a[0] && (a + b)[1..] == a[1..] + b;
      CountNamedAppend(a[1..], b, name);
    } else {
      assert a + b == b;
    }
  }

  function SumCountNamed(handlers: seq<DomainHandler>, name: string): nat {
    if handlers == [] then 0 else CountNamed(handlers[0].tools, name) + SumCountNamed(handlers[1..], name)
  }

  /** No deduplication: a name occurs in the aggregate as often as in all the handlers' lists together. */
  lemma {:induction false} AllToolsCountsEveryOccurrence(handlers: seq<DomainHandler>, name: string)
    ensures CountNamed(AllTools(handlers), name) == SumCountNamed(handlers, name)
  {
    if handlers != [] {
      CountNamedAppend(handlers[0].tools, AllTools(handlers[1..]), name);
      AllToolsCountsEveryOccurrence(handlers[1..], name);
    }
  }

  /** Two handlers listing the same tool: the aggregate holds both copies, the first handler's first. */
  lemma SharedToolListedTwice(h1: DomainHandler, h2: DomainHandler, t: Tool)
    requires h1.tools == [t] && h2.tools == [t]
    ensures AllTools([h1, h2]) == [t, t]
    ensures CountNamed(AllTools([h1, h2]), t.name) == 2
  {
    assert [h1, h2][1..] == [h2];
    assert [h2][1..] == [];
    assert AllTools([h2]) == [t] + [];
    assert [t, t][1..] == [t];
    assert [t][1..] == [];
    assert CountNamed([t], t.name) == 1;
  }

  /** `domainHandlers.firstOrNull { it.getServerInfo() != null }?.getServerInfo()`. */
  function PrimaryServerInfo(handlers: seq<DomainHandler>): (r: Option<ServerInfo>)
    ensures r.None? <==> forall i :: 0 <= i < |handlers| ==> handlers[i].serverInfo.None?
    ensures r.Some? ==> exists i :: 0 <= i < |handlers| && handlers[i].serverInfo == r
                          && forall j :: 0 <= j < i ==> handlers[j].serverInfo.None?
  {
    if handlers == [] then None
    else if handlers[0].serverInfo.Some? then handlers[0].serverInfo
    else
      var r := PrimaryServerInfo(handlers[1..]);
      assert forall i :: 1 <= i < |handlers| ==> handlers[i] == handlers[1..][i - 1];
      if r.Some? then
        var k :| 0 <= k < |handlers[1..]| && handlers[1..][k].serverInfo == r
                 && forall j :: 0 <= j < k ==> handlers[1..][j].serverInfo.None?;
        assert handlers[k + 1].serverInfo == r;
        r
      else r
  }

  /** The identity `initialize` reports: the first handler's that has one, else the built-in default. */
  function ServerInfoFor(handlers: seq<DomainHandler>): (r: ServerInfo)
    ensures (forall i :: 0 <= i < |handlers| ==> handlers[i].serverInfo.None?) ==>
      r == ServerInfo("vault-refinery-mcp", "1.0.0")
    ensures (exists i :: 0 <= i < |handlers| && handlers[i].serverInfo.Some?) ==>
      exists i :: 0 <= i < |handlers| && handlers[i].serverInfo == Some(r)
                  && forall j :: 0 <= j < i ==> handlers[j].serverInfo.None?
  {
    match PrimaryServerInfo(handlers)
    case Some(info) => info
    case None => DefaultServerInfo
  }

  /** The eager `map` half of `mapNotNull`: every handler is offered the call, in order. */
  function OfferToAll(handlers: seq<DomainHandler>, call: CallToolRequest): (r: seq<Option<CallToolResult>>)
    ensures |r| == |handlers|
    ensures forall i :: 0 <= i < |handlers| ==> r[i] == handlers[i].handleCallTool(call)
  {
    seq(|handlers|, i requires 0 <= i < |handlers| => handlers[i].handleCallTool(call))
  }

  /** The filtering half of `mapNotNull`: the present answers, in order. */
  function PresentAnswers(answers: seq<Option<CallToolResult>>): (r: seq<CallToolResult>)
    ensures |r| <= |answers|
    ensures forall x :: x in r <==> Some(x) in answers
    ensures r == [] <==> forall i :: 0 <= i < |answers| ==> answers[i].None?
    ensures r != [] ==> exists i :: 0 <= i < |answers| && answers[i] == Some(r[0])
                          && forall j :: 0 <= j < i ==> answers[j].None?
  {
    if answers == [] then []
    else
      var rest := PresentAnswers(answers[1..]);
      assert forall i :: 1 <= i < |answers| ==> answers[i] == answers[1..][i - 1];
      assert forall x :: Some(x) in answers <==> Some(x) == answers[0] || Some(x) in answers[1..];
      if answers[0].Some? then [answers[0].value] + rest
      else
        assert rest != [] ==> exists i :: 0 <= i < |answers| && answers[i] == Some(rest[0])
                                && forall j :: 0 <= j < i ==> answers[j].None? by {
          if rest != [] {
            var k :| 0 <= k < |answers[1..]| && answers[1..][k] == Some(rest[0])
                     && forall j :: 0 <= j < k ==> answers[1..][j].None?;
            assert answers[k + 1] == Some(rest[0]);
          }
        }
        rest
  }

  /** `mapNotNull { it.handleCallTool(call) }.firstOrNull()`: the first handler's answer that is present. */
  function FirstAnswer(handlers: seq<DomainHandler>, call: CallToolRequest): (r: Option<CallToolResult>)
    ensures r.None? <==> forall i :: 0 <= i < |handlers| ==> handlers[i].handleCallTool(call).None?
    ensures r.Some? ==> exists i :: 0 <= i < |handlers| && handlers[i].handleCallTool(call) == r
                          && forall j :: 0 <= j < i ==> handlers[j].handleCallTool(call).None?
  {
    var present := PresentAnswers(OfferToAll(handlers, call));
    if present == [] then None else Some(present[0])
  }

  /** A reference that asks the handlers in order and stops at the first answer. */
  function StopAtFirstAnswer(handlers: seq<DomainHandler>, call: CallToolRequest): Option<CallToolResult> {
    if handlers == [] then None
    else if handlers[0].handleCallTool(call).Some? then handlers[0].handleCallTool(call)
    else StopAtFirstAnswer(handlers[1..], call)
  }

  /**
   * Handlers are effect-free here, so offering the call to all of them and
   * then taking the first answer gives what stopping at the first answer gives.
   */
  lemma {:induction false} EagerMatchesStopAtFirst(handlers: seq<DomainHandler>, call: CallToolRequest)
    ensures FirstAnswer(handlers, call) == StopAtFirstAnswer(handlers, call)
  {
    if handlers != [] {
      var answers := OfferToAll(handlers, call);
      assert answers[1..] == OfferToAll(handlers[1..], call);
      EagerMatchesStopAtFirst(handlers[1..], call);
    }
  }

  /** The result of a call: the first present answer, else the unknown-tool error result. */
  function ToolResult(handlers: seq<DomainHandler>, call: CallToolRequest): (r: CallToolResult)
    ensures (forall i :: 0 <= i < |handlers| ==> handlers[i].handleCallTool(call).None?) ==>
      r == ErrorResult("Unknown tool: " + call.name)
    ensures (exists i :: 0 <= i < |handlers| && handlers[i].handleCallTool(call).Some?) ==>
      exists i :: 0 <= i < |handlers| && handlers[i].handleCallTool(call) == Some(r)
                  && forall j :: 0 <= j < i ==> handlers[j].handleCallTool(call).None?
  {
    match FirstAnswer(handlers, call)
    case Some(result) => result
    case None => ErrorResult("Unknown tool: " + call.name)
  }

  // ---------------------------------------------------------------------------
  // Method router

  datatype MethodKind = InitializeMethod | ListToolsMethod | CallToolMethod | UnknownMethod

  /** The `when` over the request's method name. */
  function Route(name: string): (k: MethodKind)
    ensures k == InitializeMethod <==> name == "initialize"
    ensures k == ListToolsMethod <==> name == "tools/list"
    ensures k == CallToolMethod <==> name == "tools/call"
  {
    if name == "initialize" then InitializeMethod
    else if name == "tools/list" then ListToolsMethod
    else if name == "tools/call" then CallToolMethod
    else UnknownMethod
  }

  /** What `objectMapper.convertValue(params, CallToolRequest)` accepts: a string name and an object of arguments. */
  function ToCallToolRequest(params: Option<JsonObject>): (r: Option<CallToolRequest>)
    ensures r.Some? <==> params.Some? && "name" in params.value && params.value["name"].JString?
                         && "arguments" in params.value && params.value["arguments"].JObject?
    ensures r.Some? ==> JString(r.value.name) == params.value["name"]
                        && JObject(r.value.arguments) == params.value["arguments"]
  {
    if params.Some? && "name" in params.value && params.value["name"].JString?
       && "arguments" in params.value && params.value["arguments"].JObject?
    then Some(CallToolRequest(params.value["name"].s, params.value["arguments"].fields))
    else None
  }

  /** The error a list or call on an uninitialized session gets. */
  function NotInitializedReply(id: Option<string>): (r: Reply)
    ensures r.status == 400 && r.sessionHeader == None && r.body.Rpc?
    ensures r.body.response == ErrorResponse(id, -32600, "Not initialized")
  {
    Reply(400, None, Rpc(ErrorResponse(id, InvalidRequest, "Not initialized")))
  }

  /** The reply of `handleInitialize`, whose store update is in `Post` and `Controller.HandleInitialize`. */
  function InitializeReply(handlers: seq<DomainHandler>, request: JsonRpcRequest, session: SessionData): (r: Reply)
    ensures r.status == 200 && r.sessionHeader == Some(session.id) && r.body.Rpc?
    ensures WellFormedResponse(r.body.response) && r.body.response.id == request.id
    ensures r.body.response.result == Some(InitializeResultValue(InitializeResult(
      "2025-11-25", ServerCapabilities(ToolCapabilities(Some(false))), ServerInfoFor(handlers))))
  {
    var result := InitializeResult(
      ProtocolVersion, ServerCapabilities(ToolCapabilities(listChanged := Some(false))), ServerInfoFor(handlers));
    Reply(200, Some(session.id), Rpc(SuccessResponse(request.id, InitializeResultValue(result))))
  }

  /** `handleListTools`. */
  function ListToolsReply(handlers: seq<DomainHandler>, request: JsonRpcRequest, session: SessionData): (r: Reply)
    ensures !session.isInitialized ==> r == NotInitializedReply(request.id)
    ensures session.isInitialized ==>
      r == Reply(200, None, Rpc(SuccessResponse(request.id, ListToolsResultValue(ListToolsResult(AllTools(handlers))))))
  {
    if !session.isInitialized then NotInitializedReply(request.id)
    else Reply(200, None, Rpc(SuccessResponse(request.id, ListToolsResultValue(ListToolsResult(AllTools(handlers))))))
  }

  /** `handleCallTool`: the initialization check comes before the conversion of the params. */
  function CallToolOutcome(handlers: seq<DomainHandler>, request: JsonRpcRequest, session: SessionData): (r: PostOutcome)
    ensures !session.isInitialized ==> r == Returned(NotInitializedReply(request.id))
    ensures session.isInitialized && ToCallToolRequest(request.params).None? ==> r == Threw
    ensures session.isInitialized && ToCallToolRequest(request.params).Some? ==>
      var call := ToCallToolRequest(request.params).value;
      r == Returned(Reply(200, None, Rpc(SuccessResponse(request.id, CallToolResultValue(ToolResult(handlers, call))))))
  {
    if !session.isInitialized then Returned(NotInitializedReply(request.id))
    else match ToCallToolRequest(request.params)
      case None => Threw
      case Some(call) =>
        Returned(Reply(200, None, Rpc(SuccessResponse(request.id, CallToolResultValue(ToolResult(handlers, call))))))
  }

  /** `handleUnknownMethod`: a JSON-RPC error in an HTTP success. */
  function UnknownMethodReply(request: JsonRpcRequest): (r: Reply)
    ensures r.status == 200 && r.sessionHeader == None && r.body.Rpc?
    ensures r.body.response == ErrorResponse(request.id, -32601, "Method not found")
  {
    Reply(200, None, Rpc(ErrorResponse(request.id, MethodNotFound, "Method not found")))
  }

  const InvalidRequestReply: Reply := Reply(400, None, PlainText("Invalid JSON-RPC request"))

  /** The outcomes of a POST that carry a JSON-RPC body. */
  predicate RpcReply(o: PostOutcome) {
    o.Returned? && o.reply.body.Rpc?
  }

  /**
   * `handlePost`, as a transition of the store.  `parsed` is the body as
   * Jackson decodes it (`None` when it does not parse); `freshId` is the
   * random UUID a new session would get.
   */
  function Post(sessions: Sessions, handlers: seq<DomainHandler>, parsed: Option<JsonRpcRequest>,
                sessionId: Option<string>, freshId: string): (r: (PostOutcome, Sessions))
    requires ValidStore(sessions) && FreshId(sessions, sessionId, freshId)
    ensures ValidStore(r.1)
    // an unparsable body is refused before any session is looked up
    ensures parsed.None? ==> r == (Returned(Reply(400, None, PlainText("Invalid JSON-RPC request"))), sessions)
    ensures parsed.Some? ==>
      var request := parsed.value;
      var (session, store) := LookupOrCreate(sessions, sessionId, freshId);
      match Route(request.rpcMethod)
      case InitializeMethod =>
        && r.0 == Returned(InitializeReply(handlers, request, session))
        && r.1 == store[session.id := session.(isInitialized := true)]
      case ListToolsMethod =>
        r == (Returned(ListToolsReply(handlers, request, session)), store)
      case CallToolMethod =>
        r == (CallToolOutcome(handlers, request, session), store)
      case UnknownMethod =>
        && r.0 == Returned(Reply(200, None, Rpc(ErrorResponse(request.id, -32601, "Method not found"))))
        && r.1 == store
    // every JSON-RPC body echoes the request id and holds exactly one of result and error
    ensures RpcReply(r.0) ==> parsed.Some? && r.0.reply.body.response.id == parsed.value.id
                              && WellFormedResponse(r.0.reply.body.response)
    // no session is removed, and none becomes uninitialized
    ensures forall k :: k in sessions ==>
      k in r.1 && r.1[k].id == k && (sessions[k].isInitialized ==> r.1[k].isInitialized)
    // only initialize changes a stored record
    ensures parsed.Some? && Route(parsed.value.rpcMethod) != InitializeMethod ==>
      forall k :: k in sessions ==> r.1[k] == sessions[k]
    // a stale session id is not brought back
    ensures sessionId.Some? && sessionId.value !in sessions ==> sessionId.value !in r.1
  {
    if parsed.None? then (Returned(InvalidRequestReply), sessions)
    else
      var request := parsed.value;
      var (session, store) := LookupOrCreate(sessions, sessionId, freshId);
      match Route(request.rpcMethod)
      case InitializeMethod =>
        (Returned(InitializeReply(handlers, request, session)), store[session.id := session.(isInitialized := true)])
      case ListToolsMethod => (Returned(ListToolsReply(handlers, request, session)), store)
      case CallToolMethod => (CallToolOutcome(handlers, request, session), store)
      case UnknownMethod => (Returned(UnknownMethodReply(request)), store)
  }

  /**
   * A list or call on an uninitialized session is refused with HTTP 400 and
   * error -32600, and the session stays uninitialized.
   */
  lemma NotInitializedIsRefused(sessions: Sessions, handlers: seq<DomainHandler>, request: JsonRpcRequest,
                                sessionId: Option<string>, freshId: string)
    requires ValidStore(sessions) && FreshId(sessions, sessionId, freshId)
    requires request.rpcMethod == "tools/list" || request.rpcMethod == "tools/call"
    requires !LookupOrCreate(sessions, sessionId, freshId).0.isInitialized
    ensures var (o, after) := Post(sessions, handlers, Some(request), sessionId, freshId);
      var id := LookupOrCreate(sessions, sessionId, freshId).0.id;
      && o == Returned(Reply(400, None, Rpc(JsonRpcResponse("2.0", request.id, None,
                                                            Some(JsonRpcError(-32600, "Not initialized", None))))))
      && id in after && !after[id].isInitialized
  {
  }

  /** Initialize twice on the same session: the second call changes nothing and answers the same. */
  lemma InitializeIsIdempotent(sessions: Sessions, handlers: seq<DomainHandler>, request: JsonRpcRequest,
                               sessionId: Option<string>, freshId: string, freshId2: string)
    requires ValidStore(sessions) && FreshId(sessions, sessionId, freshId)
    requires request.rpcMethod == "initialize"
    requires freshId2 !in Post(sessions, handlers, Some(request), sessionId, freshId).1
    ensures var (o1, s1) := Post(sessions, handlers, Some(request), sessionId, freshId);
      && o1.Returned? && o1.reply.sessionHeader.Some?
      && var id := o1.reply.sessionHeader.value;
      && id in s1 && s1[id].isInitialized
      && Post(s1, handlers, Some(request), Some(id), freshId2) == (o1, s1)
  {
    var (session, store) := LookupOrCreate(sessions, sessionId, freshId);
    var s1 := store[session.id := session.(isInitialized := true)];
    var again := LookupOrCreate(s1, Some(session.id), freshId2);
    assert again.0 == s1[session.id];
    assert s1[session.id := s1[session.id].(isInitialized := true)] == s1;
  }

  // ---------------------------------------------------------------------------
  // Push channel

  /** `accept?.contains("text/event-stream") == true`. */
  function AcceptsEventStream(accept: Option<string>): (r: bool)
    ensures r <==> accept.Some? && exists i: nat :: OccursAt(accept.value, "text/event-stream", i)
  {
    accept.Some? && Contains(accept.value, EventStreamMediaType)
  }

  /** The marker carrying the session's current event id in decimal, with no name and empty data. */
  function IdEvent(session: SessionData): (e: SseEvent)
    ensures e.name == None && e.data == "" && e.id.Some?
    ensures session.currentEventId >= 0 ==> AllDigits(e.id.value) && ParseNat(e.id.value) == session.currentEventId
    ensures session.currentEventId == 0 ==> e.id == Some("0")
  {
    assert IntToString(0) == "0";
    SseEvent(Some(IntToString(session.currentEventId)), None, "")
  }

  const RetryEvent: SseEvent := SseEvent(None, Some("retry"), "1000")

  /** `resumeStream`: only the current marker; the last event id is not consulted. */
  function ResumeStream(session: SessionData, lastEventId: string): (r: seq<SseEvent>)
    ensures r == [IdEvent(session)]
  {
    [IdEvent(session)]
  }

  function StreamReply(events: seq<SseEvent>): Reply {
    Reply(200, None, EventStream(events))
  }

  /** `handleGet`, as a transition of the store. */
  function Get(sessions: Sessions, accept: Option<string>, lastEventId: Option<string>,
               sessionId: Option<string>, freshId: string): (r: (Reply, Sessions))
    requires ValidStore(sessions) && FreshId(sessions, sessionId, freshId)
    ensures ValidStore(r.1)
    // the media type is checked first, before any lookup
    ensures !AcceptsEventStream(accept) ==> r == (Reply(405, None, PlainText("Method Not Allowed")), sessions)
    ensures AcceptsEventStream(accept) && sessionId.Some? && sessionId.value !in sessions ==>
      r == (Reply(404, None, PlainText("Session not found")), sessions)
    // a known session with a last event id: the marker alone
    ensures AcceptsEventStream(accept) && sessionId.Some? && sessionId.value in sessions && lastEventId.Some? ==>
      r == (Reply(200, None, EventStream([SseEvent(Some("0"), None, "")])), sessions)
    // a known session without one: the marker and the retry hint
    ensures AcceptsEventStream(accept) && sessionId.Some? && sessionId.value in sessions && lastEventId.None? ==>
      r == (Reply(200, None, EventStream([SseEvent(Some("0"), None, ""), SseEvent(None, Some("retry"), "1000")])),
            sessions)
    // no session id: a new session, the marker and the retry hint, whatever the last event id
    ensures AcceptsEventStream(accept) && sessionId.None? ==>
      && r.0 == Reply(200, None, EventStream([SseEvent(Some("0"), None, ""), SseEvent(None, Some("retry"), "1000")]))
      && r.1 == sessions[freshId := SessionData(freshId, false, 0)]
    // a GET never changes a stored record
    ensures forall k :: k in sessions ==> k in r.1 && r.1[k] == sessions[k]
  {
    if !AcceptsEventStream(accept) then (Reply(405, None, PlainText("Method Not Allowed")), sessions)
    else if sessionId.Some? && sessionId.value !in sessions then (Reply(404, None, PlainText("Session not found")), sessions)
    else if lastEventId.Some? && sessionId.Some? then
      (StreamReply(ResumeStream(sessions[sessionId.value], lastEventId.value)), sessions)
    else
      var (session, store) := LookupOrCreate(sessions, sessionId, freshId);
      (StreamReply([IdEvent(session), RetryEvent]), store)
  }

  /** The resumption token is ignored: any two last event ids give the same reply. */
  lemma LastEventIdIgnored(sessions: Sessions, accept: Option<string>, a: string, b: string,
                           sessionId: string, freshId: string)
    requires ValidStore(sessions) && FreshId(sessions, Some(sessionId), freshId)
    ensures Get(sessions, accept, Some(a), Some(sessionId), freshId) == Get(sessions, accept, Some(b), Some(sessionId), freshId)
  {
  }

  /** `handleDelete`: removes the key if present and always succeeds. */
  function Delete(sessions: Sessions, sessionId: string): (r: (Reply, Sessions))
    requires ValidStore(sessions)
    ensures ValidStore(r.1)
    ensures r.0 == Reply(200, None, NoBody)
    ensures sessionId !in r.1 && r.1.Keys == sessions.Keys - {sessionId}
    ensures forall k :: k in r.1 ==> r.1[k] == sessions[k]
    ensures sessionId !in sessions ==> r.1 == sessions
  {
    (Reply(200, None, NoBody), sessions - {sessionId})
  }

  /** After a DELETE, a GET that names the session is answered 404 (when it accepts event streams). */
  lemma DeleteThenGetNotFound(sessions: Sessions, sessionId: string, accept: Option<string>,
                              lastEventId: Option<string>, freshId: string)
    requires ValidStore(sessions) && FreshId(sessions, Some(sessionId), freshId)
    requires AcceptsEventStream(accept)
    ensures var after := Delete(sessions, sessionId).1;
      freshId !in after && Get(after, accept, lastEventId, Some(sessionId), freshId).0.status == 404
  {
  }

  // ---------------------------------------------------------------------------
  // The controller

  class Controller {
    const handlers: seq<DomainHandler>
    var sessions: Sessions

    ghost predicate Valid()
      reads this
    {
      ValidStore(sessions)
    }

    constructor (handlers: seq<DomainHandler>)
      ensures Valid() && this.handlers == handlers && sessions == map[]
    {
      this.handlers := handlers;
      sessions := map[];
    }

    /** `createSession`: a new uninitialized record under the fresh id. */
    method CreateSession(freshId: string) returns (session: SessionData)
      requires Valid() && freshId !in sessions
      modifies this
      ensures Valid()
      ensures session == SessionData(freshId, false, 0)
      ensures sessions == old(sessions)[freshId := session]
    {
      session := SessionData(id := freshId);
      sessions := sessions[session.id := session];
    }

    /** `getSession`. */
    method GetSession(sessionId: Option<string>, freshId: string) returns (session: SessionData)
      requires Valid() && FreshId(sessions, sessionId, freshId)
      modifies this
      ensures Valid()
      ensures (session, sessions) == LookupOrCreate(old(sessions), sessionId, freshId)
    {
      if sessionId.Some? && sessionId.value in sessions {
        return sessions[sessionId.value];
      }
      session := CreateSession(freshId);
    }

    /** `handleInitialize`: marks the session initialized, whatever it was, and answers. */
    method HandleInitialize(request: JsonRpcRequest, session: SessionData) returns (reply: Reply)
      requires Valid() && session.id in sessions && sessions[session.id] == session
      modifies this
      ensures Valid()
      ensures sessions == old(sessions)[session.id := session.(isInitialized := true)]
      ensures reply == InitializeReply(handlers, request, session)
    {
      sessions := sessions[session.id := session.(isInitialized := true)];
      reply := InitializeReply(handlers, request, session);
    }

    /** `handlePost`. */
    method HandlePost(parsed: Option<JsonRpcRequest>, sessionId: Option<string>, freshId: string)
      returns (outcome: PostOutcome)
      requires Valid() && FreshId(sessions, sessionId, freshId)
      modifies this
      ensures Valid()
      ensures (outcome, sessions) == Post(old(sessions), handlers, parsed, sessionId, freshId)
    {
      if parsed.None? {
        return Returned(InvalidRequestReply);
      }
      var request := parsed.value;
      var session := GetSession(sessionId, freshId);
      match Route(request.rpcMethod)
      case InitializeMethod =>
        var reply := HandleInitialize(request, session);
        outcome := Returned(reply);
      case ListToolsMethod =>
        outcome := Returned(ListToolsReply(handlers, request, session));
      case CallToolMethod =>
        outcome := CallToolOutcome(handlers, request, session);
      case UnknownMethod =>
        outcome := Returned(UnknownMethodReply(request));
    }

    /** `handleDelete`. */
    method HandleDelete(sessionId: string) returns (reply: Reply)
      requires Valid()
      modifies this
      ensures Valid()
      ensures (reply, sessions) == Delete(old(sessions), sessionId)
    {
      sessions := sessions - {sessionId};
      reply := Reply(200, None, NoBody);
    }

    /** `initiateStream`: the session named, or a new one, then the marker and the retry hint. */
    method InitiateStream(sessionId: Option<string>, freshId: string) returns (events: seq<SseEvent>)
      requires Valid() && FreshId(sessions, sessionId, freshId)
      modifies this
      ensures Valid()
      ensures var (session, store) := LookupOrCreate(old(sessions), sessionId, freshId);
        sessions == store && events == [IdEvent(session), RetryEvent]
    {
      var session := GetSession(sessionId, freshId);
      events := [IdEvent(session), RetryEvent];
    }

    /** `handleGet`. */
    method HandleGet(accept: Option<string>, lastEventId: Option<string>, sessionId: Option<string>, freshId: string)
      returns (reply: Reply)
      requires Valid() && FreshId(sessions, sessionId, freshId)
      modifies this
      ensures Valid()
      ensures (reply, sessions) == Get(old(sessions), accept, lastEventId, sessionId, freshId)
    {
      if !AcceptsEventStream(accept) {
        return Reply(405, None, PlainText("Method Not Allowed"));
      }
      var session: Option<SessionData> :=
        if sessionId.Some? && sessionId.value in sessions then Some(sessions[sessionId.value]) else None;
      if sessionId.Some? && session.None? {
        return Reply(404, None, PlainText("Session not found"));
      }
      var events;
      if lastEventId.Some? && session.Some? {
        events := ResumeStream(session.value, lastEventId.value);
      } else {
        events := InitiateStream(sessionId, freshId);
      }
      reply := StreamReply(events);
    }
  }
}
