# MCP endpoint of the vault refinery, modelled in Dafny

This project models the MCP (Model Context Protocol) endpoint of the
Obsidian vault refinery server. That endpoint answers JSON-RPC 2.0 requests
over HTTP and opens a server-sent-event push channel. The model covers:

- the **session store**, a map from session id to `{id, isInitialized, currentEventId}`;
- the **method router** for `initialize`, `tools/list`, `tools/call` and every
  other name, with the JSON-RPC error codes -32600 and -32601 of section 5.1 of
  the JSON-RPC 2.0 specification;
- the **aggregation of the registered handlers**: their tool lists concatenated,
  the first server identity present, the first call answer present;
- the **GET push-channel decisions**: 405, 404, and the marker events emitted;
- the one concrete handler, **NoteMcpOrchestrator**, with its two tools, argument
  checks, exact result texts and conversion of service failures into error results;
- the **message records** of `JsonRpcModels`.

Files, one module each:

- `json_rpc_models.dfy` (`JsonRpcModels`): the records, with their default values.
- `text.dfy` (`Text`): decimal rendering, `contains` and `joinToString`.
- `mcp_domain_handler.dfy` (`McpDomainHandler`): the handler interface, as a record of its three answers.
- `note_service.dfy` (`NoteService`): the note record and the note service as an oracle.
- `note_mcp_orchestrator.dfy` (`NoteMcpOrchestrator`): the note handler, as pure functions.
- `mcp_controller.dfy` (`McpController`): the pure parts of the controller, the
  transition functions `Post`, `Get` and `Delete`, and class `Controller`. The
  class's `sessions` field is the store; its methods update it as the HTTP
  handlers do and are proved to agree with the transition functions.
- `scenarios.dfy` (`Scenarios`): end-to-end properties with the note handler registered.

Inputs the model takes as parameters:

- The JSON body is taken already decoded: `None` means Jackson could not parse it.
- A new session's random UUID is a parameter `freshId`, required (`FreshId`) to be absent from the store and different from the session id the client sent.
- The note service is a total function from a vault path to either the notes or a failure message.

Behaviour of the code that a reader might not expect (the model follows it):

- Only the `initialize` response carries the `MCP-Session-Id` header.
- A GET without a session id creates a new session and opens the stream.
- `initialize` sets `isInitialized` to true on every call, also on a session already initialized.
- With `Last-Event-ID`, a known session gets the current event-id marker only.
- `currentEventId` is never written after construction, so every marker event has id "0".
- The origin check always passes.

## Model

| member | source | states |
|---|---|---|
| `JsonRpcModels.TextResult` | src/main/kotlin/io/github/cachij/vaultrefinery/domain/note/model/JsonRpcModels.kt:77-86 | a result built without `isError` is a success holding one text block |
| `JsonRpcModels.ErrorResult` | src/main/kotlin/io/github/cachij/vaultrefinery/domain/note/model/JsonRpcModels.kt:77-86 | a result built with `isError = true` holds one text block of type "text" |
| `JsonRpcModels.SuccessResponse` | src/main/kotlin/io/github/cachij/vaultrefinery/domain/note/model/JsonRpcModels.kt:10-15 | a success envelope has version "2.0", echoes the id verbatim and carries a result and no error |
| `JsonRpcModels.ErrorResponse` | src/main/kotlin/io/github/cachij/vaultrefinery/domain/note/model/JsonRpcModels.kt:10-21 | an error envelope has version "2.0", echoes the id verbatim and carries the error `{code, message}` with no data and no result |
| `JsonRpcModels.Defaults` | src/main/kotlin/io/github/cachij/vaultrefinery/domain/note/model/JsonRpcModels.kt:3-86 | defaults: request and response version "2.0", request id and params absent, `isError` false, content text and data absent, `listChanged` absent |
| `JsonRpcModels.ResponseAllowsBoth` | src/main/kotlin/io/github/cachij/vaultrefinery/domain/note/model/JsonRpcModels.kt:10-15 | the response record itself admits both or neither of result and error; only the builders give exactly one |
| `Text.NatToString` | src/main/kotlin/io/github/cachij/vaultrefinery/domain/note/orchestrator/NoteMcpOrchestrator.kt:86 | the count in a template renders as a non-empty digit string without a leading zero |
| `Text.ParseNatToString` | src/main/kotlin/io/github/cachij/vaultrefinery/domain/note/orchestrator/NoteMcpOrchestrator.kt:86 | reading the rendered digits back gives the number (rendering is injective) |
| `Text.IntToString` | src/main/kotlin/io/github/cachij/vaultrefinery/domain/note/orchestrator/NoteMcpOrchestrator.kt:79 | `Long`/`Int` rendering: non-empty canonical digits (no leading zero) that read back as the value, after a minus sign for negative values |
| `Text.Contains` | src/main/kotlin/io/github/cachij/vaultrefinery/mcp/controller/McpController.kt:28 | `String.contains`: true exactly when the needle occurs at some index |
| `Text.Join` | src/main/kotlin/io/github/cachij/vaultrefinery/domain/note/orchestrator/NoteMcpOrchestrator.kt:78-80 | `joinToString("\n")`: no parts join to "", one part to itself |
| `Text.JoinOccurs` | src/main/kotlin/io/github/cachij/vaultrefinery/domain/note/orchestrator/NoteMcpOrchestrator.kt:78-80 | every part of a `joinToString` result occurs in it |
| `NoteMcpOrchestrator.GetTools` | src/main/kotlin/io/github/cachij/vaultrefinery/domain/note/orchestrator/NoteMcpOrchestrator.kt:17-52 | exactly two tools, "note_list_notes" first with required ["path"], then "note_read_note" with required ["path", "fileName"]; each an object schema whose required names are declared string properties |
| `NoteMcpOrchestrator.GetServerInfo` | src/main/kotlin/io/github/cachij/vaultrefinery/domain/note/orchestrator/NoteMcpOrchestrator.kt:12-15 | never null: ("obsidian-vault-refinery-mcp", "0.0.1") |
| `NoteMcpOrchestrator.StringArgument` | src/main/kotlin/io/github/cachij/vaultrefinery/domain/note/orchestrator/NoteMcpOrchestrator.kt:65 | `as? String`: present exactly when the key is there and holds a string |
| `NoteMcpOrchestrator.NoteEntry` | src/main/kotlin/io/github/cachij/vaultrefinery/domain/note/orchestrator/NoteMcpOrchestrator.kt:79 | a note's entry opens with "- " followed by the file name |
| `NoteMcpOrchestrator.NoteEntryFields` | src/main/kotlin/io/github/cachij/vaultrefinery/domain/note/orchestrator/NoteMcpOrchestrator.kt:79 | the entry template "- name (path)\n  Size: N bytes\n  Modified: time", where a non-negative size N is its canonical decimal digits |
| `NoteMcpOrchestrator.NoteEntries` | src/main/kotlin/io/github/cachij/vaultrefinery/domain/note/orchestrator/NoteMcpOrchestrator.kt:78-80 | one entry per note, in service order |
| `NoteMcpOrchestrator.FindNote` | src/main/kotlin/io/github/cachij/vaultrefinery/domain/note/orchestrator/NoteMcpOrchestrator.kt:128 | `find`: absent exactly when no note has the name; otherwise a note with exactly that name and none before it |
| `NoteMcpOrchestrator.ListNotes` | src/main/kotlin/io/github/cachij/vaultrefinery/domain/note/orchestrator/NoteMcpOrchestrator.kt:64-101 | missing or non-string `path` gives "Missing required parameter: path"; service failure gives `isError` with "Error listing notes: <msg>"; success gives a success with the listing text |
| `NoteMcpOrchestrator.ReadNote` | src/main/kotlin/io/github/cachij/vaultrefinery/domain/note/orchestrator/NoteMcpOrchestrator.kt:103-161 | `path` is checked before `fileName`, each with its own message; service failure gives "Error reading note: <msg>"; the first note with the exact name gives "# <name>\n\n<content>", none gives `isError` with "Note not found: <name>" |
| `NoteMcpOrchestrator.NoteText` | src/main/kotlin/io/github/cachij/vaultrefinery/domain/note/orchestrator/NoteMcpOrchestrator.kt:135 | the read text is the header line "# name" and a blank line, followed by exactly the note content |
| `NoteMcpOrchestrator.HandleCallTool` | src/main/kotlin/io/github/cachij/vaultrefinery/domain/note/orchestrator/NoteMcpOrchestrator.kt:56-62 | null exactly when the name is neither tool name; otherwise the matching tool's result |
| `NoteMcpOrchestrator.ListedToolsAreHandled` | src/main/kotlin/io/github/cachij/vaultrefinery/domain/note/orchestrator/NoteMcpOrchestrator.kt:17-62 | the handler answers exactly the names it lists |
| `NoteMcpOrchestrator.AsHandler` | src/main/kotlin/io/github/cachij/vaultrefinery/domain/note/orchestrator/NoteMcpOrchestrator.kt:8-62 | the orchestrator registered as a handler: its tool list, its identity, and an answer exactly for the names it lists |
| `NoteMcpOrchestrator.ListNotesWithoutPathIgnoresService` | src/main/kotlin/io/github/cachij/vaultrefinery/domain/note/orchestrator/NoteMcpOrchestrator.kt:64-74 | without a string `path` the result does not depend on the service (it is not called) |
| `NoteMcpOrchestrator.Listing` | src/main/kotlin/io/github/cachij/vaultrefinery/domain/note/orchestrator/NoteMcpOrchestrator.kt:76-89 | the listing is "Found N notes:\n\n" then the entries joined by "\n", where N is digits that read back as the number of notes |
| `NoteMcpOrchestrator.ListingNamesEveryNote` | src/main/kotlin/io/github/cachij/vaultrefinery/domain/note/orchestrator/NoteMcpOrchestrator.kt:78-86 | every note's file name occurs in the listing text |
| `McpController.LookupOrCreate` | src/main/kotlin/io/github/cachij/vaultrefinery/mcp/controller/McpController.kt:194-205 | a known id gives its record and leaves the store unchanged; an absent or unknown id adds a new uninitialized record with event id 0 under the fresh id, never under the unknown id the client sent; no existing entry changes |
| `McpController.AllTools` | src/main/kotlin/io/github/cachij/vaultrefinery/mcp/controller/McpController.kt:131 | a tool is in the aggregate exactly when some handler lists it |
| `McpController.AllToolsAppend` | src/main/kotlin/io/github/cachij/vaultrefinery/mcp/controller/McpController.kt:131 | the aggregate of two registries in sequence is the concatenation of their aggregates (registration order kept) |
| `McpController.AllToolsCountsEveryOccurrence` | src/main/kotlin/io/github/cachij/vaultrefinery/mcp/controller/McpController.kt:131 | no deduplication: each name occurs in the aggregate as often as in all handler lists together |
| `McpController.SharedToolListedTwice` | src/main/kotlin/io/github/cachij/vaultrefinery/mcp/controller/McpController.kt:131 | two handlers listing the same tool give that tool twice, in registration order |
| `McpController.PrimaryServerInfo` | src/main/kotlin/io/github/cachij/vaultrefinery/mcp/controller/McpController.kt:90 | null exactly when no handler has an identity; otherwise the first handler's identity |
| `McpController.ServerInfoFor` | src/main/kotlin/io/github/cachij/vaultrefinery/mcp/controller/McpController.kt:90-95 | the first non-null handler identity, else ("vault-refinery-mcp", "1.0.0") |
| `McpController.OfferToAll` | src/main/kotlin/io/github/cachij/vaultrefinery/mcp/controller/McpController.kt:157-158 | the `map` half of `mapNotNull`: one answer per handler, in handler order |
| `McpController.PresentAnswers` | src/main/kotlin/io/github/cachij/vaultrefinery/mcp/controller/McpController.kt:158 | the non-null answers, no more than there were; empty exactly when every answer is null; the first is the first non-null one |
| `McpController.FirstAnswer` | src/main/kotlin/io/github/cachij/vaultrefinery/mcp/controller/McpController.kt:157-159 | null exactly when every handler returns null; otherwise the first non-null answer in handler order |
| `McpController.EagerMatchesStopAtFirst` | src/main/kotlin/io/github/cachij/vaultrefinery/mcp/controller/McpController.kt:157-159 | with effect-free handlers, the eager `mapNotNull { ... }.firstOrNull()` gives the same answer as asking in order and stopping at the first answer |
| `McpController.ToolResult` | src/main/kotlin/io/github/cachij/vaultrefinery/mcp/controller/McpController.kt:157-168 | the first non-null answer, else `isError` with one text block "Unknown tool: <name>" |
| `McpController.Route` | src/main/kotlin/io/github/cachij/vaultrefinery/mcp/controller/McpController.kt:72-77 | the three method names go to their handlers and every other name to the unknown-method handler |
| `McpController.ToCallToolRequest` | src/main/kotlin/io/github/cachij/vaultrefinery/mcp/controller/McpController.kt:155 | the conversion succeeds exactly for a string `name` and an object `arguments`, and keeps both |
| `McpController.NotInitializedReply` | src/main/kotlin/io/github/cachij/vaultrefinery/mcp/controller/McpController.kt:119-129 | HTTP 400 with error -32600 "Not initialized", echoing the id |
| `McpController.InitializeReply` | src/main/kotlin/io/github/cachij/vaultrefinery/mcp/controller/McpController.kt:88-116 | HTTP 200, header `MCP-Session-Id` equal to the session id, success echoing the id with protocol "2025-11-25", `listChanged = false` and the aggregated identity |
| `McpController.ListToolsReply` | src/main/kotlin/io/github/cachij/vaultrefinery/mcp/controller/McpController.kt:118-140 | uninitialized gives the -32600 error; initialized gives HTTP 200 with the aggregated tool list |
| `McpController.CallToolOutcome` | src/main/kotlin/io/github/cachij/vaultrefinery/mcp/controller/McpController.kt:142-176 | uninitialized gives the -32600 error before params are converted; an unconvertible params throws; otherwise HTTP 200 success with the tool result |
| `McpController.UnknownMethodReply` | src/main/kotlin/io/github/cachij/vaultrefinery/mcp/controller/McpController.kt:178-188 | HTTP 200 with error -32601 "Method not found", echoing the id |
| `McpController.Post` | src/main/kotlin/io/github/cachij/vaultrefinery/mcp/controller/McpController.kt:52-78 | unparsable body gives 400 with the store unchanged; otherwise the session is looked up or created first, then routed; initialize sets `isInitialized` true whatever it was; every JSON-RPC body echoes the id and holds exactly one of result and error; no session is removed or un-initialized; only initialize changes a stored record; an unknown session id sent by the client is not added to the store |
| `McpController.NotInitializedIsRefused` | src/main/kotlin/io/github/cachij/vaultrefinery/mcp/controller/McpController.kt:118-153 | list or call on an uninitialized session gives 400 with error -32600 "Not initialized" and the session stays uninitialized |
| `McpController.InitializeIsIdempotent` | src/main/kotlin/io/github/cachij/vaultrefinery/mcp/controller/McpController.kt:88-116 | a second initialize on the same session leaves the store as it was and gives the same answer |
| `McpController.AcceptsEventStream` | src/main/kotlin/io/github/cachij/vaultrefinery/mcp/controller/McpController.kt:28 | the push channel is accepted exactly when an Accept header contains "text/event-stream" |
| `McpController.IdEvent` | src/main/kotlin/io/github/cachij/vaultrefinery/mcp/controller/McpController.kt:211-224 | the marker has no name, empty data and the current event id in decimal digits that read back as it; "0" for a new session |
| `McpController.ResumeStream` | src/main/kotlin/io/github/cachij/vaultrefinery/mcp/controller/McpController.kt:218-224 | resuming emits only the current event-id marker |
| `McpController.Get` | src/main/kotlin/io/github/cachij/vaultrefinery/mcp/controller/McpController.kt:21-50 | 405 first with the store unchanged; 404 for a named unknown session; a known session with a last event id gets only the marker `id "0"`; otherwise the marker and the retry event "1000", with a new session when none is named; no stored record changes |
| `McpController.LastEventIdIgnored` | src/main/kotlin/io/github/cachij/vaultrefinery/mcp/controller/McpController.kt:40-41 | the value of the last event id does not affect the reply |
| `McpController.Delete` | src/main/kotlin/io/github/cachij/vaultrefinery/mcp/controller/McpController.kt:80-86 | always 200; removes exactly the given key, even when absent; other entries unchanged |
| `McpController.DeleteThenGetNotFound` | src/main/kotlin/io/github/cachij/vaultrefinery/mcp/controller/McpController.kt:80-86 | a GET naming a deleted session gets 404 |
| `McpController.Controller.constructor` | src/main/kotlin/io/github/cachij/vaultrefinery/mcp/controller/McpController.kt:15-19 | an empty store over the given handler list |
| `McpController.Controller.CreateSession` | src/main/kotlin/io/github/cachij/vaultrefinery/mcp/controller/McpController.kt:201-205 | adds an uninitialized record with event id 0 under the fresh id |
| `McpController.Controller.GetSession` | src/main/kotlin/io/github/cachij/vaultrefinery/mcp/controller/McpController.kt:194-199 | record and new store as `LookupOrCreate` gives them |
| `McpController.Controller.HandleInitialize` | src/main/kotlin/io/github/cachij/vaultrefinery/mcp/controller/McpController.kt:88-116 | writes `isInitialized = true` into the stored record and answers `InitializeReply` |
| `McpController.Controller.HandlePost` | src/main/kotlin/io/github/cachij/vaultrefinery/mcp/controller/McpController.kt:52-78 | outcome and new store as `Post` gives them; the store invariant is kept |
| `McpController.Controller.HandleDelete` | src/main/kotlin/io/github/cachij/vaultrefinery/mcp/controller/McpController.kt:80-86 | reply and new store as `Delete` gives them |
| `McpController.Controller.InitiateStream` | src/main/kotlin/io/github/cachij/vaultrefinery/mcp/controller/McpController.kt:207-216 | looks up or creates the session, then emits the marker and the retry event |
| `McpController.Controller.HandleGet` | src/main/kotlin/io/github/cachij/vaultrefinery/mcp/controller/McpController.kt:21-50 | reply and new store as `Get` gives them; the store invariant is kept |
| `Scenarios.InitializeReportsNoteIdentity` | src/main/kotlin/io/github/cachij/vaultrefinery/mcp/controller/McpController.kt:90-95 | with the note handler registered, initialize reports ("obsidian-vault-refinery-mcp", "0.0.1") |
| `Scenarios.ListAfterInitialize` | src/main/kotlin/io/github/cachij/vaultrefinery/mcp/controller/McpController.kt:131-139 | after initialize, tools/list answers exactly the note handler's two tools |
| `Scenarios.CallReachesNoteHandler` | src/main/kotlin/io/github/cachij/vaultrefinery/mcp/controller/McpController.kt:157-175 | a call on an initialized session is a JSON-RPC success with the note handler's answer or the unknown-tool result |
| `Scenarios.ListTwoNotes` | src/main/kotlin/io/github/cachij/vaultrefinery/domain/note/orchestrator/NoteMcpOrchestrator.kt:76-89 | two notes "a.md" and "b.md": the text contains "Found 2 notes:" and both names |
| `Scenarios.ListWithoutPath` | src/main/kotlin/io/github/cachij/vaultrefinery/domain/note/orchestrator/NoteMcpOrchestrator.kt:64-74 | a list call without `path` is a protocol success with the tool error "Missing required parameter: path" |
| `Scenarios.UnknownToolResult` | src/main/kotlin/io/github/cachij/vaultrefinery/mcp/controller/McpController.kt:160-168 | a name nobody serves gives `isError` with "Unknown tool: <name>" inside a protocol success |
| `Scenarios.TwoNoteListing` | src/main/kotlin/io/github/cachij/vaultrefinery/domain/note/orchestrator/NoteMcpOrchestrator.kt:78-86 | the listing of "a.md" and "b.md" counts two and names both |

## Left out

- Jackson decoding of the request body is an input (`Option<JsonRpcRequest>`), not modelled; numbers in JSON are integers only.
- `McpController.OfferToAll`: handlers are effect-free total functions, so the eager evaluation of `mapNotNull` is not captured: the effects of later handlers, and an exception a later handler throws after an earlier one answered, are not modelled (`EagerMatchesStopAtFirst` shows the answer is the same as with a short circuit).
- `McpController.ToCallToolRequest`: Jackson's scalar coercions (a number given as `name` read as a string) are not modelled; such params count as unconvertible.
- `McpController.Post`: the conversion of `initialize` params to `InitializeRequest` is not modelled. Its result is unused, and params Jackson would reject there are not modelled to throw.
- The missing-`MCP-Session-Id` case of DELETE (Spring rejects it before the handler runs) is not modelled.
- Unused headers (`Accept` and `MCP-Protocol-Version` on POST) are not inputs.
- The origin check is a stub that always passes; the model has no `Origin` input and no 403 reply.
- `McpController.RetryEvent` is a constant, the event named "retry" with data "1000" (McpController.kt:212); `Get` and `Controller.InitiateStream` state where it is sent.
- SSE transport is not modelled: `SseEmitter`, the 300000 ms timeout, send failures and `completeWithError`. Emitted events are a returned sequence, with no timing.
- For a thrown exception the model records only that it escaped (`Threw`), not the status Spring then picks.
- Aliasing: Kotlin mutates the `SessionData` object held both by the map and by the request. The model stores records as values and writes the updated record back under its key. This is the same because every record is stored under its own id.
- Concurrency: the store is an unsynchronized `HashMap`, modelled sequentially; no thread safety is claimed.
- UUID generation is randomness; the fresh id is a parameter.
- `currentEventId` is an `Int`; it is never incremented, so 32-bit wrap-around cannot arise and is not modelled.
- The note service, the filesystem scanner, SHA-256 hashing and `println` are not part of this model; the service is an oracle.
- `NoteMetadata.lastModified` is a `LocalDateTime`, kept as its rendered text; `NoteMetadata.toString` is not modelled.
- An exception's message that is `null` renders as "null"; the oracle supplies the rendered message.
- `RefineryWebController.kt` and `VaultRefineryApplication.kt` are HTTP and Spring bootstrap; they are not part of this model.
