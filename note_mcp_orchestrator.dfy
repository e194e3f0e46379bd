/**
 * The note handler: two tools over an Obsidian vault, dispatched by name.
 * Arguments are checked before the service is consulted, results are
 * rendered as single text blocks, and every failure of the service becomes
 * a result with `isError = true` instead of an exception.
 */
module NoteMcpOrchestrator {
  import opened JsonRpcModels
  import opened Text
  import opened NoteService
  import opened McpDomainHandler

  const ListNotesName: string := "note_list_notes"
  const ReadNoteName: string := "note_read_note"

  /** The identity this handler reports. */
  const NoteServerInfo: ServerInfo := ServerInfo("obsidian-vault-refinery-mcp", "0.0.1")

  function StringProperty(description: string): JsonValue {
    JObject(map["type" := JString("string"), "description" := JString(description)])
  }

  const VaultPathProperty: JsonValue := StringProperty("Absolute path to the Obsidian vault directory")

  const ListNotesTool: Tool := Tool(
    ListNotesName,
    "List all markdown notes from the Obsidian vault at the specified path",
    map[
      "type" := JString("object"),
      "properties" := JObject(map["path" := VaultPathProperty]),
      "required" := JArray([JString("path")])])

  const ReadNoteTool: Tool := Tool(
    ReadNoteName,
    "Read the content of a specific note from the Obsidian vault",
    map[
      "type" := JString("object"),
      "properties" := JObject(map[
        "path" := VaultPathProperty,
        "fileName" := StringProperty("Name of the note file (e.g., 'my-note.md')")]),
      "required" := JArray([JString("path"), JString("fileName")])])

  /** The names listed under "required" in a tool's input schema, if it lists strings only. */
  function RequiredNames(t: Tool): Option<seq<string>> {
    if "required" in t.inputSchema && t.inputSchema["required"].JArray? then
      StringItems(t.inputSchema["required"].items)
    else None
  }

  function StringItems(items: seq<JsonValue>): Option<seq<string>> {
    if forall i :: 0 <= i < |items| ==> items[i].JString? then
      Some(seq(|items|, i requires 0 <= i < |items| => items[i].s))
    else None
  }

  /** The names declared under "properties" in a tool's input schema. */
  function PropertyNames(t: Tool): set<string> {
    if "properties" in t.inputSchema && t.inputSchema["properties"].JObject? then
      t.inputSchema["properties"].fields.Keys
    else {}
  }

  /** An object schema whose every required argument is a declared string property. */
  predicate WellFormedSchema(t: Tool) {
    && "type" in t.inputSchema && t.inputSchema["type"] == JString("object")
    && RequiredNames(t).Some?
    && (forall n :: n in RequiredNames(t).value ==> n in PropertyNames(t))
    && (forall n :: n in PropertyNames(t) ==>
          t.inputSchema["properties"].fields[n].JObject? &&
          "type" in t.inputSchema["properties"].fields[n].fields &&
          t.inputSchema["properties"].fields[n].fields["type"] == JString("string"))
  }

  /** `getTools()`: the same two tools, list first, each with an object schema. */
  function GetTools(): (r: seq<Tool>)
    ensures |r| == 2
    ensures r[0].name == ListNotesName && RequiredNames(r[0]) == Some(["path"])
    ensures r[1].name == ReadNoteName && RequiredNames(r[1]) == Some(["path", "fileName"])
    ensures forall i :: 0 <= i < |r| ==> WellFormedSchema(r[i])
  {
    assert StringItems([JString("path")]).value == ["path"];
    assert StringItems([JString("path"), JString("fileName")]).value == ["path", "fileName"];
    [ListNotesTool, ReadNoteTool]
  }

  /** `getServerInfo()`: never null. */
  function GetServerInfo(): (r: Option<ServerInfo>)
    ensures r == Some(ServerInfo("obsidian-vault-refinery-mcp", "0.0.1"))
  {
    Some(NoteServerInfo)
  }

  /** `arguments[key] as? String`: the argument when it is present and a string. */
  function StringArgument(arguments: JsonObject, key: string): (r: Option<string>)
    ensures r.Some? <==> key in arguments && arguments[key].JString?
    ensures r.Some? ==> arguments[key] == JString(r.value)
  {
    if key in arguments && arguments[key].JString? then Some(arguments[key].s) else None
  }

  /** One note's entry in the listing: it opens with "- " and the file name. */
  function NoteEntry(note: NoteMetadata): (r: string)
    ensures |r| >= 2 && r[..2] == "- " && OccursAt(r, note.fileName, 2)
  {
    var r := "- " + note.fileName + " (" + note.filePath + ")\n  Size: " + IntToString(note.sizeBytes)
      + " bytes\n  Modified: " + note.lastModified;
    assert r[2..2 + |note.fileName|] == note.fileName;
    r
  }

  /**
   * The entry template: name, path in parentheses, the size in bytes and the
   * modification time on indented lines; a size that is not negative is
   * written as the canonical decimal digits of its value.
   */
  lemma NoteEntryFields(note: NoteMetadata)
    ensures var size := IntToString(note.sizeBytes);
      && NoteEntry(note) == "- " + note.fileName + " (" + note.filePath + ")\n  Size: " + size
                            + " bytes\n  Modified: " + note.lastModified
      && (note.sizeBytes >= 0 ==> AllDigits(size) && ParseNat(size) == note.sizeBytes
                                  && (|size| > 1 ==> size[0] != '0'))
  {
  }

  /** The entries of the notes, in service order. */
  function NoteEntries(notes: seq<NoteMetadata>): (r: seq<string>)
    ensures |r| == |notes| && forall i :: 0 <= i < |notes| ==> r[i] == NoteEntry(notes[i])
  {
    seq(|notes|, i requires 0 <= i < |notes| => NoteEntry(notes[i]))
  }

  const ListingHeaderStart: string := "Found "
  const ListingHeaderEnd: string := " notes:\n\n"

  /**
   * The text of a successful listing: a header whose decimal count reads
   * back as the number of notes, then the entries joined by newlines.
   */
  function Listing(notes: seq<NoteMetadata>): (r: string)
    ensures var n := |NatToString(|notes|)|;
      && |r| >= 15 + n
      && r[..6] == "Found " && r[6 + n..15 + n] == " notes:\n\n"
      && AllDigits(r[6..6 + n]) && ParseNat(r[6..6 + n]) == |notes|
      && r[15 + n..] == Join(NoteEntries(notes), "\n")
  {
    var d := NatToString(|notes|);
    var body := Join(NoteEntries(notes), "\n");
    ParseNatToString(|notes|);
    SliceConcat4(ListingHeaderStart, d, ListingHeaderEnd, body);
    ListingHeaderStart + d + ListingHeaderEnd + body
  }

  /** The text of a successful read: a header line naming the file, then exactly the content. */
  function NoteText(note: NoteMetadata): (r: string)
    ensures var h := "# " + note.fileName + "\n\n";
      |h| <= |r| && r[..|h|] == h && r[|h|..] == note.content
  {
    "# " + note.fileName + "\n\n" + note.content
  }

  /** `notes.find { it.fileName == fileName }`: the first note with exactly that name. */
  function FindNote(notes: seq<NoteMetadata>, fileName: string): (r: Option<NoteMetadata>)
    ensures r.None? <==> forall i :: 0 <= i < |notes| ==> notes[i].fileName != fileName
    ensures r.Some? ==> exists i :: 0 <= i < |notes| && notes[i] == r.value && r.value.fileName == fileName
                          && forall j :: 0 <= j < i ==> notes[j].fileName != fileName
  {
    if notes == [] then None
    else if notes[0].fileName == fileName then Some(notes[0])
    else
      var r := FindNote(notes[1..], fileName);
      assert forall i :: 1 <= i < |notes| ==> notes[i] == notes[1..][i - 1];
      if r.Some? then
        var k :| 0 <= k < |notes[1..]| && notes[1..][k] == r.value && r.value.fileName == fileName
                 && forall j :: 0 <= j < k ==> notes[1..][j].fileName != fileName;
        assert notes[k + 1] == r.value;
        r
      else r
  }

  /** `listNotes(arguments)`. */
  function ListNotes(service: Service, arguments: JsonObject): (r: CallToolResult)
    ensures StringArgument(arguments, "path").None? ==> r == ErrorResult("Missing required parameter: path")
    ensures StringArgument(arguments, "path").Some? ==>
      match service(StringArgument(arguments, "path").value)
      case LoadFailed(m) => r == ErrorResult("Error listing notes: " + m)
      case Loaded(notes) => r == TextResult(Listing(notes))
  {
    match StringArgument(arguments, "path")
    case None => ErrorResult("Missing required parameter: path")
    case Some(path) =>
      match service(path)
      case LoadFailed(m) => ErrorResult("Error listing notes: " + m)
      case Loaded(notes) => TextResult(Listing(notes))
  }

  /** `readNote(arguments)`: `path` is checked before `fileName`. */
  function ReadNote(service: Service, arguments: JsonObject): (r: CallToolResult)
    ensures StringArgument(arguments, "path").None? ==> r == ErrorResult("Missing required parameter: path")
    ensures StringArgument(arguments, "path").Some? && StringArgument(arguments, "fileName").None? ==>
      r == ErrorResult("Missing required parameter: fileName")
    ensures StringArgument(arguments, "path").Some? && StringArgument(arguments, "fileName").Some? ==>
      var fileName := StringArgument(arguments, "fileName").value;
      match service(StringArgument(arguments, "path").value)
      case LoadFailed(m) => r == ErrorResult("Error reading note: " + m)
      case Loaded(notes) =>
        if exists i :: 0 <= i < |notes| && notes[i].fileName == fileName then
          !r.isError &&
          exists i :: 0 <= i < |notes| && notes[i].fileName == fileName
                      && r == TextResult(NoteText(notes[i]))
                      && forall j :: 0 <= j < i ==> notes[j].fileName != fileName
        else r == ErrorResult("Note not found: " + fileName)
  {
    match StringArgument(arguments, "path")
    case None => ErrorResult("Missing required parameter: path")
    case Some(path) =>
      match StringArgument(arguments, "fileName")
      case None => ErrorResult("Missing required parameter: fileName")
      case Some(fileName) =>
        match service(path)
        case LoadFailed(m) => ErrorResult("Error reading note: " + m)
        case Loaded(notes) =>
          match FindNote(notes, fileName)
          case Some(note) => TextResult(NoteText(note))
          case None => ErrorResult("Note not found: " + fileName)
  }

  /** `handleCallTool(request)`: `None` exactly for names that are not this handler's. */
  function HandleCallTool(service: Service, request: CallToolRequest): (r: Option<CallToolResult>)
    ensures r.None? <==> request.name != ListNotesName && request.name != ReadNoteName
    ensures request.name == ListNotesName ==> r == Some(ListNotes(service, request.arguments))
    ensures request.name == ReadNoteName ==> r == Some(ReadNote(service, request.arguments))
  {
    if request.name == ListNotesName then Some(ListNotes(service, request.arguments))
    else if request.name == ReadNoteName then Some(ReadNote(service, request.arguments))
    else None
  }

  /**
   * The orchestrator as a registered handler: its identity and tool list,
   * and an answer for exactly the names it lists.
   */
  function AsHandler(service: Service): (h: DomainHandler)
    ensures h.tools == GetTools() && h.serverInfo == Some(NoteServerInfo)
    ensures forall c :: h.handleCallTool(c) == HandleCallTool(service, c)
    ensures forall c :: h.handleCallTool(c).Some? <==> exists i :: 0 <= i < |h.tools| && h.tools[i].name == c.name
  {
    var h := DomainHandler(GetTools(), GetServerInfo(), (request: CallToolRequest) => HandleCallTool(service, request));
    assert forall c :: h.handleCallTool(c).Some? <==> exists i :: 0 <= i < |h.tools| && h.tools[i].name == c.name by {
      forall c ensures h.handleCallTool(c).Some? <==> exists i :: 0 <= i < |h.tools| && h.tools[i].name == c.name {
        ListedToolsAreHandled(service, c);
      }
    }
    h
  }

  /** Every name this handler lists is one it answers, and it answers no other. */
  lemma ListedToolsAreHandled(service: Service, request: CallToolRequest)
    ensures HandleCallTool(service, request).Some? <==>
      exists i :: 0 <= i < |GetTools()| && GetTools()[i].name == request.name
  {
    assert GetTools()[0].name == ListNotesName;
    assert GetTools()[1].name == ReadNoteName;
  }

  /** Without a string `path`, the listing does not depend on the service: it is never consulted. */
  lemma ListNotesWithoutPathIgnoresService(s1: Service, s2: Service, arguments: JsonObject)
    requires StringArgument(arguments, "path").None?
    ensures ListNotes(s1, arguments) == ListNotes(s2, arguments)
    ensures ReadNote(s1, arguments) == ReadNote(s2, arguments)
  {
  }

  /** Every note's file name appears in the listing. */
  lemma ListingNamesEveryNote(notes: seq<NoteMetadata>, i: nat)
    requires i < |notes|
    ensures Contains(Listing(notes), notes[i].fileName)
  {
    var entries := NoteEntries(notes);
    var k := JoinOccurs(entries, "\n", i);
    var e := entries[i];
    assert OccursAt(e, notes[i].fileName, 2);
    OccursTrans(Join(entries, "\n"), e, notes[i].fileName, k, 2);
    var prefix := ListingHeaderStart + NatToString(|notes|) + ListingHeaderEnd;
    OccursAfterPrefix(prefix, Join(entries, "\n"), notes[i].fileName, k + 2);
  }
}
