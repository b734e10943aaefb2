/**
 The Codex output parser: classification of MCP events, content-free descriptors, counters and
 de-duplication. Lines arrive decoded: a blank line, a line the event model refuses, or an event.
 */
module ToolProtocol {
  import opened Base
  import opened ToolNames

  // ---- items and their classification ----

  /** The type field of an item and of an event, with the names that matter told apart. */
  datatype ItemKind =
    | CommandExecution | FileChange | McpToolCall | WebSearch | DynamicToolCall | AppToolCall
    | AgentMessage | OtherItem(name: string)

  datatype EventKind = ItemStarted | ItemUpdated | ItemCompleted | OtherEvent(name: string)

  datatype Item = Item(id: string, kind: ItemKind, text: string, name: string, server: string, tool: string,
                       command: string)
  datatype Event = Event(kind: EventKind, item: Option<Item>)
  datatype Line = BlankLine | Refused | Decoded(event: Event)

  const APP_KINDS := {AppToolCall, DynamicToolCall}
  const TOOL_KINDS := {CommandExecution, FileChange, McpToolCall, WebSearch, DynamicToolCall, AppToolCall}

  function KindName(k: ItemKind): string {
    match k
    case CommandExecution => "command_execution"
    case FileChange => "file_change"
    case McpToolCall => "mcp_tool_call"
    case WebSearch => "web_search"
    case DynamicToolCall => "dynamic_tool_call"
    case AppToolCall => "app_tool_call"
    case AgentMessage => "agent_message"
    case OtherItem(name) => name
  }

  const SAXO_SERVERS :=
    {"saxo-bank-mcp", "saxo_bank_mcp", "plugin_saxo_bank_mcp_saxo_bank_mcp", "plugin-saxo-bank-mcp-saxo-bank-mcp"}
  /** The word lists that the classification works with. */
  datatype Lists = Lists(known: set<string>, saxoProtocol: set<string>, codexDiscovery: set<string>)
  {
    /** What the argument below needs of them. */
    ghost predicate Separate() {
      && saxoProtocol !! codexDiscovery && "" in saxoProtocol
      && forall s :: s in codexDiscovery ==> Bare(s) == s
    }
  }

  const SAXO_PROTOCOL := {"", "list_resources", "list_tools", "list_prompts", "read_resource", "complete", "ping"}
  const CODEX_DISCOVERY := {"list_mcp_resources", "list_mcp_resource_templates", "read_mcp_resource"}

  datatype ParseError = NoError | UnknownMcpEvent | NonSaxoMcpEvent | NonGrantToolEvent | MalformedOutput

  datatype Classification = Saxo | SaxoProtocol | UnknownMcp | NonSaxo

  function Logical(known: set<string>, item: Item): Option<string> {
    if item.tool != "" && Normalize(known, item.tool).Some? then Normalize(known, item.tool)
    else if item.tool != "" && item.tool in known then Some(item.tool)
    else if item.name != "" && Normalize(known, item.name).Some? then Normalize(known, item.name)
    else if item.name != "" && item.name in known then Some(item.name)
    else if item.tool in known then Some(item.tool)
    else None
  }

  function Underscored(s: string): string {
    if s == "" then "" else [if s[0] == '-' then '_' else s[0]] + Underscored(s[1..])
  }

  predicate IsSaxoServer(server: string) {
    var name := Strip(server);
    name != ""
    && (name in SAXO_SERVERS
        || var lowered := Underscored(Lower(name)); Contains(lowered, "saxo") && Contains(lowered, "mcp"))
  }

  predicate IsDiscovery(w: Lists, server: string, tool: string, name: string) {
    Lower(Strip(server)) == "codex"
    && (Lower(Strip(tool)) in w.codexDiscovery || Lower(Strip(name)) in w.codexDiscovery)
  }

  predicate NamesSaxo(w: Lists, candidate: string) {
    var text := Strip(candidate);
    var lowered := Lower(text);
    && text != ""
    && (|| StartsWith(lowered, CODEX_PREFIX) || StartsWith(lowered, CLAUDE_PREFIX) || StartsWith(lowered, STDIO_PREFIX)
        || (Contains(lowered, "saxo") && Contains(lowered, "mcp"))
        || (Lower(Bare(text)) in w.saxoProtocol && Contains(lowered, "saxo")))
  }

  function BareLowered(candidate: string): string { Bare(Lower(Strip(candidate))) }

  predicate IsSaxoProtocolTool(w: Lists, candidate: string) {
    Lower(Strip(candidate)) != "" && BareLowered(candidate) != "" && BareLowered(candidate) in w.saxoProtocol
  }

  function Classify(w: Lists, item: Item): Classification {
    var server, tool, name := Strip(item.server), Strip(item.tool), Strip(item.name);
    if Logical(w.known, item).Some? then Saxo
    else if server == "" && tool == "" && name == "" then UnknownMcp
    else if IsDiscovery(w, server, tool, name) then SaxoProtocol
    else if IsSaxoServer(server) || NamesSaxo(w, tool) || NamesSaxo(w, name) then
      if IsSaxoProtocolTool(w, tool) || IsSaxoProtocolTool(w, name) then SaxoProtocol else UnknownMcp
    else NonSaxo
  }

  // ---- descriptors ----

  datatype TextDigest = TextDigest(text: string)
  datatype Category = ForeignMcp | CodexProtocol | SaxoProtocolCategory | IdentityUnknown | UnrecognizedMcp

  datatype Descriptor = Descriptor(
    outer: Option<EventKind>, category: Category, protocolName: Option<string>,
    server: Option<TextDigest>, tool: Option<TextDigest>, name: Option<TextDigest>)

  /** The descriptor's own validator; building one that fails it raises. */
  predicate ValidDescriptor(w: Lists, d: Descriptor) {
    && (d.protocolName.Some? ==> d.protocolName.value in w.codexDiscovery + (w.saxoProtocol - {""}))
    && (if d.category in {CodexProtocol, SaxoProtocolCategory} then
          && d.protocolName.Some? && d.server.None? && d.tool.None? && d.name.None?
          && (d.category == CodexProtocol ==> d.protocolName.value in w.codexDiscovery)
          && (d.category == SaxoProtocolCategory ==> d.protocolName.value in w.saxoProtocol)
        else d.protocolName.None? && d.server.Some? && d.tool.Some? && d.name.Some?)
  }

  /** The first of the two bare names that is on either list. */
  function FirstAllowed(w: Lists, tool: string, name: string): Option<string> {
    var allowed := w.codexDiscovery + w.saxoProtocol;
    if tool != "" && tool in allowed then Some(tool)
    else if name != "" && name in allowed then Some(name)
    else None
  }

  function AllowlistedName(w: Lists, item: Item): Option<string> {
    FirstAllowed(w, BareLowered(item.tool), BareLowered(item.name))
  }

  /** One of the three item events; any other is not named. */
  function Outer(kind: EventKind): Option<EventKind> { if kind.OtherEvent? then None else Some(kind) }

  function DraftDescriptor(w: Lists, kind: EventKind, item: Item, c: Classification): Descriptor {
    var protocolName := if c == SaxoProtocol then AllowlistedName(w, item) else None;
    if protocolName.Some? then
      Descriptor(Outer(kind),
                 if IsDiscovery(w, item.server, item.tool, item.name) then CodexProtocol else SaxoProtocolCategory,
                 protocolName, None, None, None)
    else
      Descriptor(Outer(kind),
                 if c == NonSaxo then ForeignMcp
                 else if Strip(item.server) == "" && Strip(item.tool) == "" && Strip(item.name) == ""
                 then IdentityUnknown
                 else UnrecognizedMcp,
                 None, Some(TextDigest(item.server)), Some(TextDigest(item.tool)), Some(TextDigest(item.name)))
  }

  /** None stands for the validation error. */
  function MakeDescriptor(w: Lists, kind: EventKind, item: Item, c: Classification): (r: Option<Descriptor>)
    ensures r.Some? ==> ValidDescriptor(w, r.value)
  {
    var d := DraftDescriptor(w, kind, item, c);
    if ValidDescriptor(w, d) then Some(d) else None
  }

  lemma ClassifyOnRaw(w: Lists, item: Item)
    ensures IsDiscovery(w, Strip(item.server), Strip(item.tool), Strip(item.name)) <==>
      IsDiscovery(w, item.server, item.tool, item.name)
    ensures IsSaxoProtocolTool(w, Strip(item.tool)) <==> IsSaxoProtocolTool(w, item.tool)
    ensures IsSaxoProtocolTool(w, Strip(item.name)) <==> IsSaxoProtocolTool(w, item.name)
  {
    StripFacts(item.server);
    StripFacts(item.tool);
    StripFacts(item.name);
  }

  /** The tool name belongs to the other protocol's list. */
  predicate Crossed(w: Lists, discovery: bool, tool: string) {
    if discovery then tool != "" && tool in w.saxoProtocol else tool in w.codexDiscovery
  }

  predicate CrossListed(w: Lists, item: Item) {
    Crossed(w, IsDiscovery(w, item.server, item.tool, item.name), BareLowered(item.tool))
  }

  /** The first allowed name fits the event's own list exactly when the tool name is not crossed. */
  lemma FirstAllowedFits(w: Lists, discovery: bool, tool: string, name: string)
    requires w.Separate()
    requires if discovery then tool in w.codexDiscovery || name in w.codexDiscovery
      else (tool != "" && tool in w.saxoProtocol) || (name != "" && name in w.saxoProtocol)
    ensures var p := FirstAllowed(w, tool, name);
      && p.Some? && p.value in w.codexDiscovery + (w.saxoProtocol - {""})
      && (p.value in (if discovery then w.codexDiscovery else w.saxoProtocol) <==> !Crossed(w, discovery, tool))
  {}

  /** What makes an event a protocol event, in terms of the bare names. */
  lemma ProtocolNames(w: Lists, item: Item)
    requires w.Separate() && Classify(w, item) == SaxoProtocol
    ensures var tool, name := BareLowered(item.tool), BareLowered(item.name);
      if IsDiscovery(w, item.server, item.tool, item.name) then tool in w.codexDiscovery || name in w.codexDiscovery
      else (tool != "" && tool in w.saxoProtocol) || (name != "" && name in w.saxoProtocol)
  {
    ClassifyOnRaw(w, item);
  }

  lemma ProtocolDraft(w: Lists, kind: EventKind, item: Item)
    requires AllowlistedName(w, item).Some?
      && AllowlistedName(w, item).value in w.codexDiscovery + (w.saxoProtocol - {""})
    ensures ValidDescriptor(w, DraftDescriptor(w, kind, item, SaxoProtocol)) <==>
      AllowlistedName(w, item).value in
        (if IsDiscovery(w, item.server, item.tool, item.name) then w.codexDiscovery else w.saxoProtocol)
  {}

  /** A descriptor cannot be built exactly for a protocol event whose tool field names a helper of the
      other protocol (its name field then carries the helper that made it a protocol event). */
  lemma DescriptorFailsIff(w: Lists, kind: EventKind, item: Item)
    requires w.Separate()
    ensures MakeDescriptor(w, kind, item, Classify(w, item)).None? <==>
      Classify(w, item) == SaxoProtocol && CrossListed(w, item)
  {
    if Classify(w, item) == SaxoProtocol {
      ProtocolNames(w, item);
      FirstAllowedFits(w, IsDiscovery(w, item.server, item.tool, item.name), BareLowered(item.tool),
                       BareLowered(item.name));
      ProtocolDraft(w, kind, item);
    }
  }

  lemma ListsAreSeparate(known: set<string>)
    ensures Lists(known, SAXO_PROTOCOL, CODEX_DISCOVERY).Separate()
  {
    ResourcesName();
    TemplatesName();
    ReadName();
  }

  lemma ResourcesName()
    ensures Bare("list_mcp_resources") == "list_mcp_resources" && "list_mcp_resources" !in SAXO_PROTOCOL
  {
    var s := "list_mcp_resources";
    assert NoDouble(s);
    BareOfPlain(s);
    assert |s| == 18 && forall t :: t in SAXO_PROTOCOL ==> |t| < 17;
  }

  lemma TemplatesName()
    ensures Bare("list_mcp_resource_templates") == "list_mcp_resource_templates"
    ensures "list_mcp_resource_templates" !in SAXO_PROTOCOL
  {
    var s := "list_mcp_resource_templates";
    assert NoDouble(s);
    BareOfPlain(s);
    assert |s| == 27 && forall t :: t in SAXO_PROTOCOL ==> |t| < 17;
  }

  lemma ReadName()
    ensures Bare("read_mcp_resource") == "read_mcp_resource" && "read_mcp_resource" !in SAXO_PROTOCOL
  {
    var s := "read_mcp_resource";
    assert NoDouble(s);
    BareOfPlain(s);
    assert |s| == 17 && forall t :: t in SAXO_PROTOCOL ==> |t| < 17;
  }

  lemma DiscoveryWithForeignTool(w: Lists, item: Item)
    requires w.Separate() && Logical(w.known, item).None?
    requires Lower(Strip(item.server)) == "codex" && Lower(Strip(item.name)) in w.codexDiscovery
    requires BareLowered(item.tool) != "" && BareLowered(item.tool) in w.saxoProtocol
    ensures Classify(w, item) == SaxoProtocol && MakeDescriptor(w, ItemStarted, item, SaxoProtocol).None?
  {
    ClassifyOnRaw(w, item);
    DescriptorFailsIff(w, ItemStarted, item);
  }

  /** Such an event exists whatever names are known besides the two it uses: a ping that carries a
      discovery helper's name. */
  lemma DescriptorCanFail(known: set<string>) returns (item: Item)
    requires "ping" !in known && "list_mcp_resources" !in known
    ensures item == Item("1", McpToolCall, "", "list_mcp_resources", "codex", "ping", "")
    ensures var w := Lists(known, SAXO_PROTOCOL, CODEX_DISCOVERY);
      Classify(w, item) == SaxoProtocol && MakeDescriptor(w, ItemStarted, item, SaxoProtocol).None?
  {
    item := Item("1", McpToolCall, "", "list_mcp_resources", "codex", "ping", "");
    PlainWords();
    PlainPing();
    NothingKnown(known, item);
    ListsAreSeparate(known);
    DiscoveryWithForeignTool(Lists(known, SAXO_PROTOCOL, CODEX_DISCOVERY), item);
  }

  lemma PlainWords()
    ensures Lower(Strip("codex")) == "codex" && Lower(Strip("list_mcp_resources")) == "list_mcp_resources"
  {
    Plain("codex");
    Plain("list_mcp_resources");
  }

  lemma PlainPing()
    ensures BareLowered("ping") == "ping"
  {
    Plain("ping");
    BareOfPlain("ping");
  }

  lemma NothingKnown(known: set<string>, item: Item)
    requires item.tool == "ping" && item.name == "list_mcp_resources"
    requires item.tool !in known && item.name !in known
    ensures Logical(known, item).None?
  {
    assert item.tool[0] == 'p' && item.name[0] == 'l';
    PlainUnknown(known, item.tool);
    PlainUnknown(known, item.name);
  }

  lemma Plain(s: string)
    requires Stripped(s) && forall i :: 0 <= i < |s| ==> !('A' <= s[i] <= 'Z')
    ensures Strip(s) == s && Lower(s) == s
  {
    StripFacts(s);
    LowerPlain(s);
  }
}
