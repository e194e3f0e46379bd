/**
 * The JSON-RPC 2.0 envelope and the MCP message records exchanged by the
 * dispatcher.  Every Kotlin data class becomes a datatype; its default
 * argument values become default values of the constructor's parameters, so
 * `CallToolResult(content)` is a success exactly as in the source.
 *
 * `Any?` payloads are modelled by `JsonValue`, a decoded JSON document.
 */
module JsonRpcModels {

  datatype Option<+T> = None | Some(value: T)

  /** A decoded JSON value (the `Any?` of a Jackson-decoded map). */
  datatype JsonValue =
    | JNull
    | JBool(b: bool)
    | JNumber(n: int)
    | JString(s: string)
    | JArray(items: seq<JsonValue>)
    | JObject(fields: map<string, JsonValue>)

  type JsonObject = map<string, JsonValue>

  /** The version tag both envelopes carry by default. */
  const JsonRpcVersion: string := "2.0"

  /** Reserved error codes of section 5.1 of the JSON-RPC 2.0 specification. */
  const InvalidRequest: int := -32600
  const MethodNotFound: int := -32601

  datatype JsonRpcRequest = JsonRpcRequest(
    jsonrpc: string := JsonRpcVersion,
    id: Option<string> := None,
    rpcMethod: string,
    params: Option<JsonObject> := None)

  datatype JsonRpcError = JsonRpcError(
    code: int,
    message: string,
    data: Option<JsonValue> := None)

  /** The `Any?` result of a response: one of the three result records. */
  datatype RpcResult =
    | InitializeResultValue(initialize: InitializeResult)
    | ListToolsResultValue(listTools: ListToolsResult)
    | CallToolResultValue(callTool: CallToolResult)

  /** Structurally any combination of `result` and `error` is allowed. */
  datatype JsonRpcResponse = JsonRpcResponse(
    jsonrpc: string := JsonRpcVersion,
    id: Option<string>,
    result: Option<RpcResult> := None,
    error: Option<JsonRpcError> := None)

  datatype ClientCapabilities = ClientCapabilities(
    roots: Option<JsonObject> := None,
    sampling: Option<JsonObject> := None)

  datatype ClientInfo = ClientInfo(name: string, version: string)

  datatype InitializeRequest = InitializeRequest(
    protocolVersion: string,
    capabilities: ClientCapabilities,
    clientInfo: ClientInfo)

  datatype ToolCapabilities = ToolCapabilities(listChanged: Option<bool> := None)

  datatype ServerCapabilities = ServerCapabilities(tools: ToolCapabilities)

  datatype ServerInfo = ServerInfo(name: string, version: string)

  datatype InitializeResult = InitializeResult(
    protocolVersion: string,
    capabilities: ServerCapabilities,
    serverInfo: ServerInfo)

  datatype ListToolsRequest = ListToolsRequest(cursor: Option<string> := None)

  datatype Tool = Tool(name: string, description: string, inputSchema: JsonObject)

  datatype ListToolsResult = ListToolsResult(tools: seq<Tool>)

  datatype CallToolRequest = CallToolRequest(name: string, arguments: JsonObject)

  datatype Content = Content(
    contentType: string,
    text: Option<string> := None,
    data: Option<JsonValue> := None)

  datatype CallToolResult = CallToolResult(content: seq<Content>, isError: bool := false)

  /** The one shape of content block the core builds: `Content(type = "text", text = s)`. */
  function TextContent(s: string): (c: Content)
    ensures c.contentType == "text" && c.text == Some(s) && c.data == None
  {
    Content("text", Some(s))
  }

  /** A result built without `isError`, holding one text block. */
  function TextResult(s: string): (r: CallToolResult)
    ensures !r.isError && r.content == [TextContent(s)]
  {
    CallToolResult([TextContent(s)])
  }

  /** A result built with `isError = true`, holding one text block. */
  function ErrorResult(s: string): (r: CallToolResult)
    ensures r.isError && r.content == [TextContent(s)]
  {
    CallToolResult([TextContent(s)], isError := true)
  }

  /** The single text of a one-block result, if it has that shape. */
  function SingleText(r: CallToolResult): (t: Option<string>)
    ensures t.Some? <==> |r.content| == 1 && r.content[0].text.Some?
    ensures t.Some? ==> t.value == r.content[0].text.value
  {
    if |r.content| == 1 && r.content[0].text.Some? then Some(r.content[0].text.value) else None
  }

  /** What every response the dispatcher builds satisfies: exactly one of result and error. */
  predicate WellFormedResponse(r: JsonRpcResponse) {
    r.jsonrpc == JsonRpcVersion && (r.result.Some? != r.error.Some?)
  }

  /** A success envelope, echoing the request id. */
  function SuccessResponse(id: Option<string>, result: RpcResult): (r: JsonRpcResponse)
    ensures WellFormedResponse(r) && r.id == id && r.result == Some(result)
  {
    JsonRpcResponse(id := id, result := Some(result))
  }

  /** An error envelope, echoing the request id. */
  function ErrorResponse(id: Option<string>, code: int, message: string): (r: JsonRpcResponse)
    ensures WellFormedResponse(r) && r.id == id && r.result == None
    ensures r.error == Some(JsonRpcError(code, message, None))
  {
    JsonRpcResponse(id := id, error := Some(JsonRpcError(code, message)))
  }

  /** The default values of the records, as their constructors supply them. */
  lemma Defaults(id: Option<string>, m: string, content: seq<Content>, kind: string)
    ensures JsonRpcRequest(rpcMethod := m).jsonrpc == JsonRpcVersion
    ensures JsonRpcRequest(rpcMethod := m).id == None && JsonRpcRequest(rpcMethod := m).params == None
    ensures JsonRpcResponse(id := id).jsonrpc == JsonRpcVersion && JsonRpcResponse(id := id).id == id
    ensures !CallToolResult(content).isError
    ensures Content(kind).text == None && Content(kind).data == None
    ensures ToolCapabilities().listChanged == None
  {
  }

  /** The record itself does not enforce the exclusive-or; only the builders above do. */
  lemma ResponseAllowsBoth(id: Option<string>, res: RpcResult, err: JsonRpcError)
    ensures !WellFormedResponse(JsonRpcResponse(id := id, result := Some(res), error := Some(err)))
    ensures !WellFormedResponse(JsonRpcResponse(id := id))
  {
  }
}
