/**
 * The interface every pluggable backend implements: its tool list, an
 * optional server identity and a tool-call entry point that answers `None`
 * for calls that are not its own.  The interface has no behaviour of its
 * own, so it is a record of the three answers; a concrete handler (see
 * NoteMcpOrchestrator.AsHandler) fills the record in.
 */
module McpDomainHandler {
  import opened JsonRpcModels

  datatype DomainHandler = DomainHandler(
    tools: seq<Tool>,
    serverInfo: Option<ServerInfo>,
    handleCallTool: CallToolRequest -> Option<CallToolResult>)
}
