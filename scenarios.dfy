/**
 * End-to-end properties of the endpoint with the note handler registered
 * as its only handler: what initialize, tools/list and tools/call answer.
 */
module Scenarios {
  import opened JsonRpcModels
  import opened Text
  import opened NoteService
  import opened McpDomainHandler
  import opened McpController
  import NoteMcpOrchestrator

  function Registry(service: Service): seq<DomainHandler> {
    [NoteMcpOrchestrator.AsHandler(service)]
  }

  /** With the note handler registered, initialize reports the handler's identity, not the default. */
  lemma InitializeReportsNoteIdentity(service: Service, request: JsonRpcRequest, sessionId: Option<string>,
                                      freshId: string)
    requires request.rpcMethod == "initialize"
    requires FreshId(map[], sessionId, freshId)
    ensures var o := Post(map[], Registry(service), Some(request), sessionId, freshId).0;
      && o.Returned? && o.reply.body.Rpc?
      && o.reply.body.response.result.Some?
      && o.reply.body.response.result.value.InitializeResultValue?
      && o.reply.body.response.result.value.initialize.serverInfo
         == ServerInfo("obsidian-vault-refinery-mcp", "0.0.1")
  {
    var hs := Registry(service);
    assert hs[0].serverInfo == Some(NoteMcpOrchestrator.NoteServerInfo);
  }

  /** After initialize, tools/list answers exactly the note handler's two tools, in order. */
  lemma ListAfterInitialize(service: Service, init: JsonRpcRequest, list: JsonRpcRequest, freshId: string,
                            freshId2: string)
    requires init.rpcMethod == "initialize" && list.rpcMethod == "tools/list"
    requires freshId2 != freshId
    ensures var (o1, s1) := Post(map[], Registry(service), Some(init), None, freshId);
      var o2 := Post(s1, Registry(service), Some(list), Some(freshId), freshId2).0;
      && o2.Returned? && o2.reply.status == 200 && o2.reply.body.Rpc?
      && o2.reply.body.response.result == Some(ListToolsResultValue(ListToolsResult(NoteMcpOrchestrator.GetTools())))
      && |NoteMcpOrchestrator.GetTools()| == 2
      && NoteMcpOrchestrator.GetTools()[0].name == "note_list_notes"
      && NoteMcpOrchestrator.GetTools()[1].name == "note_read_note"
  {
    var hs := Registry(service);
    assert hs[1..] == [];
    assert AllTools(hs) == hs[0].tools + [];
    var (session, store) := LookupOrCreate(map[], None, freshId);
    var s1 := store[freshId := session.(isInitialized := true)];
    assert Post(map[], hs, Some(init), None, freshId).1 == s1;
    assert LookupOrCreate(s1, Some(freshId), freshId2).0 == s1[freshId];
    assert s1[freshId].isInitialized;
    var o2 := Post(s1, hs, Some(list), Some(freshId), freshId2).0;
    assert o2 == Returned(ListToolsReply(hs, list, s1[freshId]));
    assert o2.reply.body.response.result == Some(ListToolsResultValue(ListToolsResult(AllTools(hs))));
    assert AllTools(hs) == NoteMcpOrchestrator.GetTools();
  }

  /** A call, on an initialized session, routed to the note handler (it answers both of its names). */
  function CallOn(service: Service, name: string, arguments: JsonObject, id: Option<string>): PostOutcome {
    var init := JsonRpcRequest(rpcMethod := "initialize");
    var (_, s1) := Post(map[], Registry(service), Some(init), None, "s1");
    var params := map["name" := JString(name), "arguments" := JObject(arguments)];
    var call := JsonRpcRequest(id := id, rpcMethod := "tools/call", params := Some(params));
    Post(s1, Registry(service), Some(call), Some("s1"), "s2").0
  }

  /** On the initialized session, a call comes back as an HTTP 200 success holding the tool result. */
  lemma CallOnIsSuccess(service: Service, name: string, arguments: JsonObject, id: Option<string>)
    ensures CallOn(service, name, arguments, id) == Returned(Reply(200, None, Rpc(SuccessResponse(
      id, CallToolResultValue(ToolResult(Registry(service), CallToolRequest(name, arguments)))))))
  {
    var hs := Registry(service);
    var init := JsonRpcRequest(rpcMethod := "initialize");
    var s1 := Post(map[], hs, Some(init), None, "s1").1;
    assert s1 == map["s1" := SessionData("s1", true, 0)];
    var session := LookupOrCreate(s1, Some("s1"), "s2").0;
    assert session.isInitialized;
    var params := map["name" := JString(name), "arguments" := JObject(arguments)];
    assert ToCallToolRequest(Some(params)) == Some(CallToolRequest(name, arguments));
  }

  /** With one handler, the tool result is its answer, or the unknown-tool result when it declines. */
  lemma SingleHandlerToolResult(h: DomainHandler, call: CallToolRequest)
    ensures ToolResult([h], call) ==
      if h.handleCallTool(call).Some? then h.handleCallTool(call).value else ErrorResult("Unknown tool: " + call.name)
  {
    if h.handleCallTool(call).None? {
      assert forall i :: 0 <= i < |[h]| ==> [h][i].handleCallTool(call).None?;
    } else {
      assert [h][0].handleCallTool(call).Some?;
    }
  }

  /** The call reaches the note handler and comes back as a JSON-RPC success. */
  lemma CallReachesNoteHandler(service: Service, name: string, arguments: JsonObject, id: Option<string>)
    ensures var o := CallOn(service, name, arguments, id);
      var answer := NoteMcpOrchestrator.HandleCallTool(service, CallToolRequest(name, arguments));
      && o.Returned? && o.reply.status == 200 && o.reply.body.Rpc?
      && o.reply.body.response.id == id && o.reply.body.response.error == None
      && o.reply.body.response.result == Some(CallToolResultValue(
           if answer.Some? then answer.value else ErrorResult("Unknown tool: " + name)))
  {
    CallOnIsSuccess(service, name, arguments, id);
    SingleHandlerToolResult(NoteMcpOrchestrator.AsHandler(service), CallToolRequest(name, arguments));
  }

  /** The text listing two notes "a.md" and "b.md" counts them and names both. */
  lemma TwoNoteListing(a: NoteMetadata, b: NoteMetadata)
    requires a.fileName == "a.md" && b.fileName == "b.md"
    ensures var t := NoteMcpOrchestrator.Listing([a, b]);
      Contains(t, "Found 2 notes:") && Contains(t, "a.md") && Contains(t, "b.md")
  {
    var t := NoteMcpOrchestrator.Listing([a, b]);
    assert NatToString(2) == "2";
    assert t[0..|"Found 2 notes:"|] == "Found 2 notes:";
    assert OccursAt(t, "Found 2 notes:", 0);
    NoteMcpOrchestrator.ListingNamesEveryNote([a, b], 0);
    NoteMcpOrchestrator.ListingNamesEveryNote([a, b], 1);
  }

  /**
   * The listing scenario: a vault with two notes "a.md" (10 bytes) and
   * "b.md" (20 bytes) is listed with a header counting two notes and both
   * names in the text.
   */
  lemma ListTwoNotes(service: Service, a: NoteMetadata, b: NoteMetadata)
    requires a.fileName == "a.md" && a.sizeBytes == 10
    requires b.fileName == "b.md" && b.sizeBytes == 20
    requires service("/vault") == Loaded([a, b])
    ensures var o := CallOn(service, "note_list_notes", map["path" := JString("/vault")], Some("1"));
      && o.Returned? && o.reply.status == 200 && o.reply.body.Rpc?
      && o.reply.body.response.result.Some? && o.reply.body.response.result.value.CallToolResultValue?
      && var r := o.reply.body.response.result.value.callTool;
      && !r.isError && SingleText(r).Some?
      && Contains(SingleText(r).value, "Found 2 notes:")
      && Contains(SingleText(r).value, "a.md")
      && Contains(SingleText(r).value, "b.md")
  {
    var arguments := map["path" := JString("/vault")];
    CallReachesNoteHandler(service, "note_list_notes", arguments, Some("1"));
    assert NoteMcpOrchestrator.StringArgument(arguments, "path") == Some("/vault");
    TwoNoteListing(a, b);
  }

  /** The same call without `path` is a tool error, not a protocol error. */
  lemma ListWithoutPath(service: Service)
    ensures var o := CallOn(service, "note_list_notes", map[], Some("2"));
      && o.Returned? && o.reply.status == 200 && o.reply.body.Rpc?
      && o.reply.body.response.error == None
      && o.reply.body.response.result == Some(CallToolResultValue(
           CallToolResult([Content("text", Some("Missing required parameter: path"), None)], true)))
  {
    CallReachesNoteHandler(service, "note_list_notes", map[], Some("2"));
  }

  /** A name the note handler does not serve falls through to the unknown-tool result. */
  lemma UnknownToolResult(service: Service, name: string, arguments: JsonObject)
    requires name != "note_list_notes" && name != "note_read_note"
    ensures var o := CallOn(service, name, arguments, None);
      && o.Returned? && o.reply.status == 200 && o.reply.body.Rpc?
      && o.reply.body.response.error == None
      && o.reply.body.response.result == Some(CallToolResultValue(
           CallToolResult([Content("text", Some("Unknown tool: " + name), None)], true)))
  {
    CallReachesNoteHandler(service, name, arguments, None);
  }
}
