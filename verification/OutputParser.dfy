/**
 The Codex output parser: one pass over the events that counts each tool event once and keeps the
 logical tools in the order of their calls.
 */
module OutputParser {
  import opened Base
  import opened ToolNames
  import opened ToolProtocol

  datatype Tally = Tally(
    tool: nat, command: nat, file: nat, web: nat, app: nat, mcp: nat, saxo: nat, nonSaxo: nat,
    error: ParseError, order: seq<string>, descriptors: seq<Descriptor>)

  const NO_TALLY := Tally(0, 0, 0, 0, 0, 0, 0, 0, NoError, [], [])

  datatype Parsing = Parsing(seen: set<string>, tally: Tally, answers: seq<string>, texts: seq<string>)

  const START := Parsing({}, NO_TALLY, [], [])

  function Identity(item: Item): string {
    if item.id != "" then item.id
    else KindName(item.kind) + ":" + item.name + ":" + item.server + ":" + item.tool + ":" + item.command
  }

  predicate IsTool(e: Event) { e.item.Some? && e.item.value.kind in TOOL_KINDS }

  function One(b: bool): nat { if b then 1 else 0 }

  /** The kind counters for one new tool event. */
  function Counted(t: Tally, item: Item): Tally {
    t.(tool := t.tool + 1,
       command := t.command + One(item.kind == CommandExecution), file := t.file + One(item.kind == FileChange),
       web := t.web + One(item.kind == WebSearch), app := t.app + One(item.kind in APP_KINDS),
       mcp := t.mcp + One(item.kind == McpToolCall))
  }

  /** What an MCP event comes to: a call of a logical tool, protocol noise, a foreign or unknown
      event, or the exception of a descriptor that cannot be built. */
  datatype Sorting = ToolCall(logical: string) | Noise(descriptor: Descriptor)
                   | Foreign(descriptor: Descriptor, error: ParseError) | Raises

  function Sort(w: Lists, kind: EventKind, item: Item): Sorting {
    var c := Classify(w, item);
    if c == Saxo then ToolCall(Logical(w.known, item).value)
    else
      var d := MakeDescriptor(w, kind, item, c);
      if d.None? then Raises
      else if c == SaxoProtocol then Noise(d.value)
      else Foreign(d.value, if c == UnknownMcp then UnknownMcpEvent else NonSaxoMcpEvent)
  }

  /** The counting works for any way of sorting MCP events. */
  type Sorter = (EventKind, Item) -> Sorting

  function SorterOf(w: Lists): Sorter { (kind, item) => Sort(w, kind, item) }

  /** The outcome of an item; None stands for an exception. */
  function Classified(sorting: Sorting, item: Item, t: Tally): Option<Tally> {
    if item.kind != McpToolCall then Some(t)
    else match sorting
      case ToolCall(logical) => Some(t.(saxo := t.saxo + 1, order := t.order + [logical]))
      case Noise(d) => Some(t.(descriptors := t.descriptors + [d]))
      case Foreign(d, error) =>
        Some(t.(descriptors := t.descriptors + [d], nonSaxo := t.nonSaxo + 1,
                error := if t.error != NoError then t.error else error))
      case Raises => None
  }

  /** Assistant text is kept from every event that carries it, and as an answer once completed. */
  function Heard(p: Parsing, e: Event): Parsing {
    if e.item.None? || e.item.value.kind != AgentMessage || e.item.value.text == "" then p
    else if e.kind == ItemCompleted then
      p.(texts := p.texts + [e.item.value.text], answers := p.answers + [e.item.value.text])
    else p.(texts := p.texts + [e.item.value.text])
  }

  function Advance(sort: Sorter, p: Parsing, e: Event): Option<Parsing> {
    var q := Heard(p, e);
    if !IsTool(e) || Identity(e.item.value) in p.seen then Some(q)
    else
      var t := Classified(sort(e.kind, e.item.value), e.item.value, Counted(p.tally, e.item.value));
      if t.None? then None else Some(q.(seen := p.seen + {Identity(e.item.value)}, tally := t.value))
  }

  function Parse(sort: Sorter, events: seq<Event>): Option<Parsing> {
    if events == [] then Some(START)
    else
      var p := Parse(sort, events[..|events| - 1]);
      if p.None? then None else Advance(sort, p.value, events[|events| - 1])
  }

  // ---- the counters updated in place ----

  class EventCounts {
    var tool: nat
    var command: nat
    var file: nat
    var web: nat
    var app: nat
    var mcp: nat
    var saxo: nat
    var nonSaxo: nat
    var error: ParseError
    /** The list of calls and of descriptors that are filled along with the counters. */
    var order: seq<string>
    var descriptors: seq<Descriptor>

    constructor ()
      ensures View() == NO_TALLY
    {
      tool, command, file, web, app, mcp, saxo, nonSaxo := 0, 0, 0, 0, 0, 0, 0, 0;
      error, order, descriptors := NoError, [], [];
    }

    function View(): Tally
      reads this
    {
      Tally(tool, command, file, web, app, mcp, saxo, nonSaxo, error, order, descriptors)
    }

    /** One new tool event. */
    method CountItem(sort: Sorter, kind: EventKind, item: Item) returns (ok: bool)
      modifies this
      ensures ok <==> Classified(sort(kind, item), item, Counted(old(View()), item)).Some?
      ensures ok ==> View() == Classified(sort(kind, item), item, Counted(old(View()), item)).value
    {
      tool := tool + 1;
      ok := ClassifyItem(sort, kind, item);
    }

    /** False stands for the exception of a descriptor. */
    method ClassifyItem(sort: Sorter, kind: EventKind, item: Item) returns (ok: bool)
      modifies this
      ensures ok <==> Classified(sort(kind, item), item, CountedBut(old(View()), item)).Some?
      ensures ok ==> View() == Classified(sort(kind, item), item, CountedBut(old(View()), item)).value
    {
      ok := true;
      if item.kind == CommandExecution { command := command + 1; }
      if item.kind == FileChange { file := file + 1; }
      if item.kind == WebSearch { web := web + 1; }
      if item.kind in APP_KINDS { app := app + 1; }
      if item.kind != McpToolCall { return; }
      mcp := mcp + 1;
      match sort(kind, item)
      case ToolCall(logical) =>
        saxo := saxo + 1;
        order := order + [logical];
      case Noise(d) =>
        descriptors := descriptors + [d];
      case Foreign(d, why) =>
        descriptors := descriptors + [d];
        nonSaxo := nonSaxo + 1;
        if error == NoError { error := why; }
      case Raises =>
        ok := false;
    }
  }

  /** The kind counters alone: the caller has counted the tool event. */
  function CountedBut(t: Tally, item: Item): Tally { Counted(t, item).(tool := t.tool) }

  // ---- the parser ----

  /** What the parser hands on; a malformed stream gives an empty trace that says so. */
  datatype Trace = Trace(assistant: string, tally: Tally, texts: seq<string>)

  const MALFORMED := Trace("", NO_TALLY.(error := MalformedOutput), [])

  function Join(parts: seq<string>): string {
    if parts == [] then "" else if |parts| == 1 then parts[0] else parts[0] + "\n" + Join(parts[1..])
  }

  function Events(lines: seq<Line>): seq<Event> {
    if lines == [] then []
    else Events(lines[..|lines| - 1]) + (if lines[|lines| - 1].Decoded? then [lines[|lines| - 1].event] else [])
  }

  function TraceOf(p: Parsing): Trace { Trace(Join(p.answers), p.tally, p.texts) }

  /** None stands for an exception out of the parser. */
  method ParseOutput(w: Lists, lines: seq<Line>) returns (trace: Option<Trace>)
    ensures trace == ParsedTrace(SorterOf(w), lines)
  {
    var events := DecodeLines(lines);
    if events.None? { return Some(MALFORMED); }
    trace := ParseEvents(SorterOf(w), events.value);
  }

  function ParsedTrace(sort: Sorter, lines: seq<Line>): Option<Trace> {
    if Refused in lines then Some(MALFORMED)
    else
      var p := Parse(sort, Events(lines));
      if p.None? then None else Some(TraceOf(p.value))
  }

  method DecodeLines(lines: seq<Line>) returns (events: Option<seq<Event>>)
    ensures events == if Refused in lines then None else Some(Events(lines))
  {
    var found: seq<Event> := [];
    for n := 0 to |lines|
      invariant found == Events(lines[..n])
      invariant Refused !in lines[..n]
    {
      assert lines[..n + 1][..n] == lines[..n];
      if lines[n] == Refused { return None; }
      if lines[n].Decoded? { found := found + [lines[n].event]; }
    }
    assert lines[..|lines|] == lines;
    events := Some(found);
  }

  method ParseEvents(sort: Sorter, events: seq<Event>) returns (trace: Option<Trace>)
    ensures trace == if Parse(sort, events).None? then None else Some(TraceOf(Parse(sort, events).value))
  {
    var counts := new EventCounts();
    var seen, answers, texts := {}, [], [];
    for n := 0 to |events|
      invariant Parse(sort, events[..n]) == Some(Parsing(seen, counts.View(), answers, texts))
    {
      assert events[..n + 1][..n] == events[..n];
      PrefixFails(sort, events, n + 1);
      var event := events[n];
      if event.item.None? { continue; }
      var item := event.item.value;
      if item.kind == AgentMessage && item.text != "" { texts := texts + [item.text]; }
      if event.kind == ItemCompleted && item.kind == AgentMessage && item.text != "" {
        answers := answers + [item.text];
      }
      if item.kind !in TOOL_KINDS { continue; }
      var identity := Identity(item);
      if identity in seen { continue; }
      seen := seen + {identity};
      var ok := counts.CountItem(sort, event.kind, item);
      if !ok { return None; }
    }
    assert events[..|events|] == events;
    trace := Some(Trace(Join(answers), counts.View(), texts));
  }

  lemma {:induction false} PrefixFails(sort: Sorter, events: seq<Event>, n: nat)
    requires n <= |events|
    ensures Parse(sort, events[..n]).None? ==> Parse(sort, events).None?
    decreases |events| - n
  {
    if n < |events| {
      assert events[..n + 1][..n] == events[..n];
      PrefixFails(sort, events, n + 1);
    } else {
      assert events[..n] == events;
    }
  }

  // ---- what the counters mean ----

  /** A tool event that no earlier event has the identity of. */
  predicate IsFirst(events: seq<Event>, i: nat)
    requires i < |events|
  {
    IsTool(events[i]) && !SeenBefore(events[..i], Identity(events[i].item.value))
  }

  predicate SeenBefore(events: seq<Event>, identity: string) {
    exists e :: e in events && IsTool(e) && Identity(e.item.value) == identity
  }

  ghost function Firsts(events: seq<Event>, kinds: set<ItemKind>): set<nat> {
    set i: nat | i < |events| && IsFirst(events, i) && events[i].item.value.kind in kinds
  }

  predicate IsNew(events: seq<Event>, e: Event) { IsTool(e) && !SeenBefore(events, Identity(e.item.value)) }

  lemma FirstIsNew(events: seq<Event>, e: Event)
    ensures IsFirst(events + [e], |events|) <==> IsNew(events, e)
    ensures forall i: nat :: i < |events| ==> (IsFirst(events + [e], i) <==> IsFirst(events, i))
  {
    var more := events + [e];
    assert more[..|events|] == events;
    forall i: nat | i < |events| ensures IsFirst(more, i) <==> IsFirst(events, i) {
      assert more[..i] == events[..i];
    }
  }

  lemma FirstsGrow(events: seq<Event>, e: Event, kinds: set<ItemKind>)
    ensures |Firsts(events + [e], kinds)| == |Firsts(events, kinds)|
      + One(IsNew(events, e) && e.item.value.kind in kinds)
  {
    FirstIsNew(events, e);
    var before, after := Firsts(events, kinds), Firsts(events + [e], kinds);
    var n := |events|;
    assert (events + [e])[n] == e && n !in before;
    assert forall i: nat :: i < n ==> (i in after <==> i in before);
    if IsNew(events, e) && e.item.value.kind in kinds {
      assert after == before + {n};
    } else {
      assert after == before;
    }
  }

  lemma {:induction false} SeenMeans(sort: Sorter, events: seq<Event>, identity: string)
    requires Parse(sort, events).Some?
    ensures identity in Parse(sort, events).value.seen <==> SeenBefore(events, identity)
  {
    if events != [] {
      var front, e := events[..|events| - 1], events[|events| - 1];
      assert events == front + [e];
      SeenMeans(sort, front, identity);
      assert forall x :: x in events <==> x in front || x == e;
    }
  }

  /** The counters after one more event: `kind` is its kind when it is a new tool event. */
  predicate Added(t: Tally, u: Tally, kind: Option<ItemKind>) {
    && u.tool == t.tool + One(kind.Some?)
    && u.command == t.command + One(kind == Some(CommandExecution))
    && u.file == t.file + One(kind == Some(FileChange))
    && u.web == t.web + One(kind == Some(WebSearch))
    && u.app == t.app + One(kind == Some(AppToolCall) || kind == Some(DynamicToolCall))
    && u.mcp == t.mcp + One(kind == Some(McpToolCall))
  }

  function NewKind(events: seq<Event>, e: Event): Option<ItemKind> {
    if IsNew(events, e) then Some(e.item.value.kind) else None
  }

  lemma AdvanceCounts(sort: Sorter, events: seq<Event>, e: Event)
    requires Parse(sort, events + [e]).Some?
    ensures Parse(sort, events).Some?
    ensures Added(Parse(sort, events).value.tally, Parse(sort, events + [e]).value.tally, NewKind(events, e))
  {
    assert (events + [e])[..|events|] == events;
    if IsTool(e) { SeenMeans(sort, events, Identity(e.item.value)); }
  }

  ghost predicate CountsFirsts(t: Tally, events: seq<Event>) {
    && t.tool == |Firsts(events, TOOL_KINDS)|
    && t.command == |Firsts(events, {CommandExecution})|
    && t.file == |Firsts(events, {FileChange})|
    && t.web == |Firsts(events, {WebSearch})|
    && t.app == |Firsts(events, APP_KINDS)|
    && t.mcp == |Firsts(events, {McpToolCall})|
  }

  lemma CountsGrow(t: Tally, u: Tally, events: seq<Event>, e: Event)
    requires CountsFirsts(t, events) && Added(t, u, NewKind(events, e))
    ensures CountsFirsts(u, events + [e])
  {
    FirstsGrow(events, e, TOOL_KINDS);
    FirstsGrow(events, e, {CommandExecution});
    FirstsGrow(events, e, {FileChange});
    FirstsGrow(events, e, {WebSearch});
    FirstsGrow(events, e, APP_KINDS);
    FirstsGrow(events, e, {McpToolCall});
  }

  /** Each counter is the number of distinct tool events of its kind: those whose identity occurs for
      the first time. */
  lemma {:induction false} CountersMean(sort: Sorter, events: seq<Event>)
    requires Parse(sort, events).Some?
    ensures CountsFirsts(Parse(sort, events).value.tally, events)
  {
    if events != [] {
      var front, e := events[..|events| - 1], events[|events| - 1];
      assert events == front + [e];
      AdvanceCounts(sort, front, e);
      CountersMean(sort, front);
      CountsGrow(Parse(sort, front).value.tally, Parse(sort, events).value.tally, front, e);
    }
  }

  /** Calls carry known names, descriptors pass their validator, and foreign events name an error. */
  ghost predicate Proper(sort: Sorter, w: Lists) {
    forall kind, item :: ProperSorting(sort(kind, item), w)
  }

  predicate ProperSorting(s: Sorting, w: Lists) {
    match s
    case ToolCall(logical) => logical in w.known
    case Noise(d) => ValidDescriptor(w, d)
    case Foreign(d, error) => ValidDescriptor(w, d) && error in {UnknownMcpEvent, NonSaxoMcpEvent}
    case Raises => true
  }

  lemma SorterIsProper(w: Lists)
    ensures Proper(SorterOf(w), w)
  {
    forall kind, item ensures ProperSorting(SorterOf(w)(kind, item), w) {
      NormalizeIsKnown(w.known, item.tool);
      NormalizeIsKnown(w.known, item.name);
    }
  }

  predicate Conserved(t: Tally, w: Lists) {
    && t.command + t.file + t.web + t.app + t.mcp == t.tool
    && t.mcp == t.saxo + |t.descriptors|
    && |t.order| == t.saxo && (forall name :: name in t.order ==> name in w.known)
    && (forall d :: d in t.descriptors ==> ValidDescriptor(w, d))
    && t.nonSaxo <= |t.descriptors|
    && t.error in {NoError, UnknownMcpEvent, NonSaxoMcpEvent}
    && (t.error == NoError <==> t.nonSaxo == 0)
  }

  /** Nothing is lost between the counters, for any way of sorting MCP events. */
  lemma {:induction false} ParseConserves(sort: Sorter, w: Lists, events: seq<Event>)
    requires Proper(sort, w) && Parse(sort, events).Some?
    ensures Conserved(Parse(sort, events).value.tally, w)
  {
    if events != [] {
      var front, e := events[..|events| - 1], events[|events| - 1];
      ParseConserves(sort, w, front);
      var p := Parse(sort, front).value;
      if IsTool(e) && Identity(e.item.value) !in p.seen {
        assert ProperSorting(sort(e.kind, e.item.value), w);
        ClassifiedConserves(sort(e.kind, e.item.value), w, e.item.value, p.tally);
      }
    }
  }

  lemma ClassifiedConserves(s: Sorting, w: Lists, item: Item, t: Tally)
    requires ProperSorting(s, w) && item.kind in TOOL_KINDS && Conserved(t, w)
    requires Classified(s, item, Counted(t, item)).Some?
    ensures Conserved(Classified(s, item, Counted(t, item)).value, w)
  {}

  /** Every trace the parser returns is an empty malformed one or conserves its counters. */
  lemma TraceConserves(w: Lists, lines: seq<Line>)
    requires ParsedTrace(SorterOf(w), lines).Some?
    ensures var trace := ParsedTrace(SorterOf(w), lines).value;
      if Refused in lines then trace == MALFORMED else Conserved(trace.tally, w)
  {
    SorterIsProper(w);
    if Refused !in lines { ParseConserves(SorterOf(w), w, Events(lines)); }
  }

  lemma {:induction false} ParseFrom(sort: Sorter, a: seq<Event>, b: seq<Event>, after: seq<Event>)
    requires Parse(sort, a) == Parse(sort, b)
    ensures Parse(sort, a + after) == Parse(sort, b + after)
  {
    if after == [] {
      assert a + after == a && b + after == b;
    } else {
      var n := |after| - 1;
      assert (a + after)[..|a + after| - 1] == a + after[..n];
      assert (b + after)[..|b + after| - 1] == b + after[..n];
      ParseFrom(sort, a, b, after[..n]);
    }
  }

  /** Sending again a tool event whose identity was already seen changes nothing, wherever it comes. */
  lemma ResendChangesNothing(sort: Sorter, before: seq<Event>, e: Event, after: seq<Event>)
    requires IsTool(e) && SeenBefore(before, Identity(e.item.value))
    ensures Parse(sort, before + [e] + after) == Parse(sort, before + after)
  {
    assert (before + [e])[..|before|] == before;
    if Parse(sort, before).Some? {
      SeenMeans(sort, before, Identity(e.item.value));
    }
    ParseFrom(sort, before + [e], before, after);
  }

  predicate Unbuildable(w: Lists, item: Item) {
    item.kind == McpToolCall && Classify(w, item) == SaxoProtocol && CrossListed(w, item)
  }

  predicate Breaks(w: Lists, events: seq<Event>, i: nat)
    requires i < |events|
  {
    IsFirst(events, i) && Unbuildable(w, events[i].item.value)
  }

  ghost predicate AnyBreak(w: Lists, events: seq<Event>) { exists i: nat :: i < |events| && Breaks(w, events, i) }

  /** The parser raises exactly when some event is the first of its identity and has a descriptor that
      cannot be built. */
  lemma {:induction false} ParseFailsIff(w: Lists, events: seq<Event>)
    requires w.Separate()
    ensures Parse(SorterOf(w), events).None? <==> AnyBreak(w, events)
  {
    if events != [] {
      var front, e := events[..|events| - 1], events[|events| - 1];
      assert events == front + [e];
      ParseFailsIff(w, front);
      ParseStepFails(w, front, e);
      BreaksGrow(w, front, e);
    }
  }

  lemma ParseStepFails(w: Lists, events: seq<Event>, e: Event)
    requires w.Separate()
    ensures Parse(SorterOf(w), events + [e]).None? <==>
      Parse(SorterOf(w), events).None? || (IsNew(events, e) && Unbuildable(w, e.item.value))
  {
    assert (events + [e])[..|events|] == events;
    if Parse(SorterOf(w), events).Some? {
      AdvanceFailsIff(w, Parse(SorterOf(w), events).value, e);
      if IsTool(e) { SeenMeans(SorterOf(w), events, Identity(e.item.value)); }
    }
  }

  lemma AdvanceFailsIff(w: Lists, p: Parsing, e: Event)
    requires w.Separate()
    ensures Advance(SorterOf(w), p, e).None? <==>
      IsTool(e) && Identity(e.item.value) !in p.seen && Unbuildable(w, e.item.value)
  {
    if IsTool(e) { DescriptorFailsIff(w, e.kind, e.item.value); }
  }

  lemma BreaksGrow(w: Lists, front: seq<Event>, e: Event)
    ensures AnyBreak(w, front + [e]) <==> AnyBreak(w, front) || (IsNew(front, e) && Unbuildable(w, e.item.value))
  {
    var more, n := front + [e], |front|;
    assert more[..n] == front && more[n] == e;
    forall i: nat | i < n ensures Breaks(w, more, i) <==> Breaks(w, front, i) {
      assert more[..i] == front[..i];
    }
    assert Breaks(w, more, n) <==> IsNew(front, e) && Unbuildable(w, e.item.value);
  }
}
