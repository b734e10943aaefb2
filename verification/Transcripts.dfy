/**
 What a parsed trace holds, event by event: which texts, answers, calls, descriptors and error, in
 which order, and how the answers become one text.
 */
module Transcripts {
  import opened Base
  import opened ToolNames
  import opened ToolProtocol
  import opened OutputParser

  // ---- lists that pick something out of a stream ----

  predicate InOrder(at: seq<nat>) { forall j, k :: 0 <= j < k < |at| ==> at[j] < at[k] }

  predicate Marked<T>(marks: seq<Option<T>>, i: nat) { i < |marks| && marks[i].Some? }

  /** Each element comes from its own place, in order, and no marked place is left out. */
  ghost predicate PickedAt<T>(out: seq<T>, marks: seq<Option<T>>, at: seq<nat>) {
    && InOrder(at) && |at| == |out|
    && (forall k :: 0 <= k < |at| ==> at[k] < |marks| && marks[at[k]] == Some(out[k]))
    && (forall i {:trigger Marked(marks, i)} :: Marked(marks, i) ==> i in at)
  }

  ghost predicate Picked<T>(out: seq<T>, marks: seq<Option<T>>) { exists at :: PickedAt(out, marks, at) }

  lemma PickedNone<T>()
    ensures Picked<T>([], [])
  {
    assert PickedAt<T>([], [], []);
  }

  lemma PickedNoMore<T>(out: seq<T>, marks: seq<Option<T>>, at: seq<nat>)
    requires PickedAt(out, marks, at)
    ensures PickedAt(out, marks + [None], at)
  {
    var longer := marks + [None];
    forall i: nat | Marked(longer, i) ensures i in at { assert Marked(marks, i); }
    forall k | 0 <= k < |at| ensures at[k] < |longer| && longer[at[k]] == Some(out[k]) {
      assert marks[at[k]] == Some(out[k]);
    }
  }

  lemma PickedOneMore<T>(out: seq<T>, marks: seq<Option<T>>, at: seq<nat>, x: T)
    requires PickedAt(out, marks, at)
    ensures PickedAt(out + [x], marks + [Some(x)], at + [|marks|])
  {
    var longer, more, all := marks + [Some(x)], at + [|marks|], out + [x];
    assert more[|at|] == |marks|;
    forall i: nat | Marked(longer, i) ensures i in more {
      if i < |marks| {
        assert Marked(marks, i);
        var k :| 0 <= k < |at| && at[k] == i;
        assert more[k] == i;
      }
    }
    forall k | 0 <= k < |more| ensures more[k] < |longer| && longer[more[k]] == Some(all[k]) {
      if k < |at| { assert marks[at[k]] == Some(out[k]); }
    }
    forall a, b | 0 <= a < b < |more| ensures more[a] < more[b] {
      if b < |at| { assert at[a] < at[b]; } else { assert at[a] < |marks|; }
    }
  }

  lemma PickedSnoc<T>(out: seq<T>, marks: seq<Option<T>>, m: Option<T>)
    requires Picked(out, marks)
    ensures Picked(if m.Some? then out + [m.value] else out, marks + [m])
  {
    var at :| PickedAt(out, marks, at);
    if m.Some? { PickedOneMore(out, marks, at, m.value); } else { PickedNoMore(out, marks, at); }
  }

  // ---- what each event contributes ----

  predicate Says(e: Event) { e.item.Some? && e.item.value.kind == AgentMessage && e.item.value.text != "" }

  function TextOf(e: Event): Option<string> { if Says(e) then Some(e.item.value.text) else None }

  function AnswerOf(e: Event): Option<string> {
    if Says(e) && e.kind == ItemCompleted then Some(e.item.value.text) else None
  }

  /** How the event is sorted, if it is an MCP call that no earlier event has the identity of. */
  ghost function SortedAt(sort: Sorter, events: seq<Event>, i: nat): Option<Sorting>
    requires i < |events|
  {
    if IsFirst(events, i) && events[i].item.value.kind == McpToolCall
    then Some(sort(events[i].kind, events[i].item.value))
    else None
  }

  function CallOf(s: Option<Sorting>): Option<string> {
    if s.Some? && s.value.ToolCall? then Some(s.value.logical) else None
  }

  function DescriptorOf(s: Option<Sorting>): Option<Descriptor> {
    if s.Some? && (s.value.Noise? || s.value.Foreign?) then Some(s.value.descriptor) else None
  }

  function ErrorOf(s: Option<Sorting>): Option<ParseError> {
    if s.Some? && s.value.Foreign? then Some(s.value.error) else None
  }

  ghost function Each<T>(events: seq<Event>, mark: Event -> Option<T>): seq<Option<T>> {
    seq(|events|, i requires 0 <= i < |events| => mark(events[i]))
  }

  ghost function Sortings(sort: Sorter, events: seq<Event>): seq<Option<Sorting>> {
    seq(|events|, i requires 0 <= i < |events| => SortedAt(sort, events, i))
  }

  ghost function Map<T>(sortings: seq<Option<Sorting>>, mark: Option<Sorting> -> Option<T>): seq<Option<T>> {
    seq(|sortings|, i requires 0 <= i < |sortings| => mark(sortings[i]))
  }

  /** Every list of the trace picks out what its events contribute, in order; the error is the first. */
  ghost predicate Transcribes(p: Parsing, sort: Sorter, events: seq<Event>) {
    && Picked(p.texts, Each(events, TextOf)) && Picked(p.answers, Each(events, AnswerOf))
    && Sorts(p.tally, Sortings(sort, events))
  }

  ghost predicate Sorts(t: Tally, sortings: seq<Option<Sorting>>) {
    && Picked(t.order, Map(sortings, CallOf)) && Picked(t.descriptors, Map(sortings, DescriptorOf))
    && Blames(t.error, t.nonSaxo, Map(sortings, ErrorOf))
  }

  predicate Leads(error: ParseError, errors: seq<ParseError>) { error == if errors == [] then NoError else errors[0] }

  lemma EachSnoc<T>(events: seq<Event>, mark: Event -> Option<T>, e: Event)
    ensures Each(events + [e], mark) == Each(events, mark) + [mark(e)]
  {}

  lemma MapSnoc<T>(sortings: seq<Option<Sorting>>, mark: Option<Sorting> -> Option<T>, s: Option<Sorting>)
    ensures Map(sortings + [s], mark) == Map(sortings, mark) + [mark(s)]
  {}

  ghost function NewSorting(sort: Sorter, events: seq<Event>, e: Event): Option<Sorting> {
    if IsNew(events, e) && e.item.value.kind == McpToolCall then Some(sort(e.kind, e.item.value)) else None
  }

  lemma SortingsSnoc(sort: Sorter, events: seq<Event>, e: Event)
    ensures Sortings(sort, events + [e]) == Sortings(sort, events) + [NewSorting(sort, events, e)]
  {
    FirstIsNew(events, e);
    var more := events + [e];
    forall i: nat | i < |events| ensures SortedAt(sort, more, i) == SortedAt(sort, events, i) {
      assert more[i] == events[i] && more[..i] == events[..i];
    }
    assert more[..|events|] == events;
  }

  /** The errors of foreign events, in order: the trace counts them and keeps the first. */
  ghost predicate Blames(error: ParseError, count: nat, marks: seq<Option<ParseError>>) {
    exists errors: seq<ParseError> :: Picked(errors, marks) && Leads(error, errors) && |errors| == count
  }

  lemma FirstIsError(errors: seq<ParseError>, marks: seq<Option<ParseError>>)
    requires Picked(errors, marks) && forall i :: 0 <= i < |marks| ==> marks[i] != Some(NoError)
    ensures errors != [] ==> errors[0] != NoError
  {
    if errors != [] {
      var at :| PickedAt(errors, marks, at);
      assert marks[at[0]] == Some(errors[0]);
    }
  }

  lemma LeadsMore(error: ParseError, errors: seq<ParseError>, m: Option<ParseError>)
    requires Leads(error, errors) && (errors != [] ==> errors[0] != NoError)
    ensures Leads(if error != NoError || m.None? then error else m.value,
                  if m.Some? then errors + [m.value] else errors)
    ensures |if m.Some? then errors + [m.value] else errors| == |errors| + One(m.Some?)
  {}

  lemma BlamesSnoc(error: ParseError, count: nat, marks: seq<Option<ParseError>>, m: Option<ParseError>)
    requires Blames(error, count, marks) && forall i :: 0 <= i < |marks| ==> marks[i] != Some(NoError)
    ensures Blames(if error != NoError || m.None? then error else m.value, count + One(m.Some?), marks + [m])
  {
    var errors: seq<ParseError> :| Picked(errors, marks) && Leads(error, errors) && |errors| == count;
    PickedSnoc(errors, marks, m);
    FirstIsError(errors, marks);
    LeadsMore(error, errors, m);
  }

  /** The tally after one more event, given how the event is sorted. */
  predicate Tallied(t: Tally, u: Tally, s: Option<Sorting>) {
    && u.order == (if CallOf(s).Some? then t.order + [CallOf(s).value] else t.order)
    && u.descriptors == (if DescriptorOf(s).Some? then t.descriptors + [DescriptorOf(s).value] else t.descriptors)
    && u.nonSaxo == t.nonSaxo + One(ErrorOf(s).Some?)
    && u.error == if t.error != NoError || ErrorOf(s).None? then t.error else ErrorOf(s).value
  }

  lemma SortsSnoc(t: Tally, sortings: seq<Option<Sorting>>, s: Option<Sorting>, u: Tally)
    requires Sorts(t, sortings) && Tallied(t, u, s)
    requires forall i :: 0 <= i < |sortings| ==> ErrorOf(sortings[i]) != Some(NoError)
    ensures Sorts(u, sortings + [s])
  {
    PickedSnoc(t.order, Map(sortings, CallOf), CallOf(s));
    PickedSnoc(t.descriptors, Map(sortings, DescriptorOf), DescriptorOf(s));
    BlamesSnoc(t.error, t.nonSaxo, Map(sortings, ErrorOf), ErrorOf(s));
    MapSnoc(sortings, CallOf, s);
    MapSnoc(sortings, DescriptorOf, s);
    MapSnoc(sortings, ErrorOf, s);
  }

  // ---- the whole trace ----

  /** Foreign events name an error. */
  ghost predicate NamesErrors(sort: Sorter) {
    forall kind, item :: sort(kind, item).Foreign? ==> sort(kind, item).error != NoError
  }

  lemma HeardTranscribes(p: Parsing, events: seq<Event>, e: Event)
    requires Picked(p.texts, Each(events, TextOf)) && Picked(p.answers, Each(events, AnswerOf))
    ensures Picked(Heard(p, e).texts, Each(events + [e], TextOf))
    ensures Picked(Heard(p, e).answers, Each(events + [e], AnswerOf))
  {
    EachSnoc(events, TextOf, e);
    EachSnoc(events, AnswerOf, e);
    PickedSnoc(p.texts, Each(events, TextOf), TextOf(e));
    PickedSnoc(p.answers, Each(events, AnswerOf), AnswerOf(e));
  }

  lemma AdvanceTallies(sort: Sorter, events: seq<Event>, e: Event)
    requires Parse(sort, events + [e]).Some?
    ensures Parse(sort, events).Some?
    ensures var p, q := Parse(sort, events).value, Parse(sort, events + [e]).value;
      && q.texts == Heard(p, e).texts && q.answers == Heard(p, e).answers
      && Tallied(p.tally, q.tally, NewSorting(sort, events, e))
  {
    assert (events + [e])[..|events|] == events;
    if IsTool(e) { SeenMeans(sort, events, Identity(e.item.value)); }
  }

  /** The lists of a parsed trace are exactly what its events contribute, each in the order of the
      events, and its error is the one of the first foreign event. */
  lemma {:induction false} TraceMeans(sort: Sorter, events: seq<Event>)
    requires NamesErrors(sort) && Parse(sort, events).Some?
    ensures Transcribes(Parse(sort, events).value, sort, events)
  {
    if events == [] {
      PickedNone<string>();
      NothingSorted(sort);
      assert Each(events, TextOf) == [] && Each(events, AnswerOf) == [];
    } else {
      var front, e := events[..|events| - 1], events[|events| - 1];
      assert events == front + [e];
      AdvanceTallies(sort, front, e);
      TraceMeans(sort, front);
      TranscribesSnoc(sort, front, e, Parse(sort, front).value, Parse(sort, events).value);
    }
  }

  lemma TranscribesSnoc(sort: Sorter, events: seq<Event>, e: Event, p: Parsing, q: Parsing)
    requires NamesErrors(sort) && Transcribes(p, sort, events)
    requires q.texts == Heard(p, e).texts && q.answers == Heard(p, e).answers
    requires Tallied(p.tally, q.tally, NewSorting(sort, events, e))
    ensures Transcribes(q, sort, events + [e])
  {
    HeardTranscribes(p, events, e);
    SortingsSnoc(sort, events, e);
    SortsSnoc(p.tally, Sortings(sort, events), NewSorting(sort, events, e), q.tally);
  }

  lemma NothingSorted(sort: Sorter)
    ensures Sorts(NO_TALLY, Sortings(sort, []))
  {
    PickedNone<string>();
    PickedNone<Descriptor>();
    PickedNone<ParseError>();
    var none: seq<Option<Sorting>> := Sortings(sort, []);
    assert Map(none, CallOf) == [] && Map(none, DescriptorOf) == [] && Map(none, ErrorOf) == [];
    var no: seq<ParseError> := [];
    assert Picked(no, []) && Leads(NoError, no);
  }

  // ---- what an MCP event is taken for ----

  predicate Nameless(item: Item) { Strip(item.server) == Strip(item.tool) == Strip(item.name) == "" }

  predicate Discovers(w: Lists, item: Item) { IsDiscovery(w, Strip(item.server), Strip(item.tool), Strip(item.name)) }

  predicate SoundsSaxo(w: Lists, item: Item) {
    IsSaxoServer(Strip(item.server)) || NamesSaxo(w, Strip(item.tool)) || NamesSaxo(w, Strip(item.name))
  }

  predicate AsksProtocol(w: Lists, item: Item) {
    IsSaxoProtocolTool(w, Strip(item.tool)) || IsSaxoProtocolTool(w, Strip(item.name))
  }

  /** The descriptor of an event that is not protocol noise tells its category and hides its names. */
  predicate Hides(d: Descriptor, kind: EventKind, item: Item, category: Category) {
    && d.category == category && d.outer == Outer(kind) && d.protocolName.None?
    && d.server == Some(TextDigest(item.server)) && d.tool == Some(TextDigest(item.tool))
    && d.name == Some(TextDigest(item.name))
  }

  /** An event that asks for the protocol of Codex or of Saxo. */
  predicate AboutProtocol(w: Lists, item: Item) {
    !Nameless(item) && (Discovers(w, item) || (SoundsSaxo(w, item) && AsksProtocol(w, item)))
  }

  lemma ClassifyMeans(w: Lists, item: Item)
    ensures Classify(w, item) == Saxo <==> Logical(w.known, item).Some?
    ensures Classify(w, item) == SaxoProtocol <==> Logical(w.known, item).None? && AboutProtocol(w, item)
    ensures Classify(w, item) == UnknownMcp <==>
      Logical(w.known, item).None? && !AboutProtocol(w, item) && (Nameless(item) || SoundsSaxo(w, item))
  {}

  lemma DescriptorHides(w: Lists, kind: EventKind, item: Item, c: Classification)
    requires c == UnknownMcp || c == NonSaxo
    ensures MakeDescriptor(w, kind, item, c).Some?
    ensures Hides(MakeDescriptor(w, kind, item, c).value, kind, item,
                  if c == NonSaxo then ForeignMcp else if Nameless(item) then IdentityUnknown else UnrecognizedMcp)
  {}

  /** A call of a known tool is kept as such; protocol noise is described or raises; anything else is
      foreign, with its error and a description that hides its names. */
  lemma SortMeans(w: Lists, kind: EventKind, item: Item, c: Classification)
    requires c == Classify(w, item)
    ensures c == Saxo ==> Sort(w, kind, item) == ToolCall(Logical(w.known, item).value)
    ensures c == SaxoProtocol ==> Sort(w, kind, item).Noise? || Sort(w, kind, item).Raises?
    ensures c == UnknownMcp ==> IsForeign(Sort(w, kind, item), UnknownMcpEvent, MakeDescriptor(w, kind, item, c))
    ensures c == NonSaxo ==> IsForeign(Sort(w, kind, item), NonSaxoMcpEvent, MakeDescriptor(w, kind, item, c))
  {
    if c == UnknownMcp || c == NonSaxo { DescriptorHides(w, kind, item, c); }
  }

  predicate IsForeign(s: Sorting, error: ParseError, d: Option<Descriptor>) {
    s.Foreign? && s.error == error && d == Some(s.descriptor)
  }

  // ---- when two events are the same ----

  predicate NoColon(s: string) { ':' !in s }

  /** Everything before the first colon is determined by the whole. */
  lemma {:induction false} ColonSplits(a: string, b: string, x: string, y: string)
    requires NoColon(a) && NoColon(b) && a + ":" + x == b + ":" + y
    ensures a == b && x == y
  {
    assert (a != [] ==> a[0] in a) && (b != [] ==> b[0] in b);
    assert (a + ":" + x)[0] == (b + ":" + y)[0];
    if a == [] {
      assert b == [];
      assert (a + ":" + x)[1..] == x && (b + ":" + y)[1..] == y;
    } else {
      assert b != [];
      assert (a + ":" + x)[1..] == a[1..] + ":" + x && (b + ":" + y)[1..] == b[1..] + ":" + y;
      ColonSplits(a[1..], b[1..], x, y);
    }
  }

  function Described(item: Item): string {
    item.name + ":" + (item.server + ":" + (item.tool + ":" + item.command))
  }

  lemma DescribedSplits(a: Item, b: Item)
    requires NoColon(a.name) && NoColon(a.server) && NoColon(a.tool)
    requires NoColon(b.name) && NoColon(b.server) && NoColon(b.tool)
    requires Described(a) == Described(b)
    ensures a.name == b.name && a.server == b.server && a.tool == b.tool && a.command == b.command
  {
    ColonSplits(a.name, b.name, a.server + ":" + (a.tool + ":" + a.command),
                b.server + ":" + (b.tool + ":" + b.command));
    ColonSplits(a.server, b.server, a.tool + ":" + a.command, b.tool + ":" + b.command);
    ColonSplits(a.tool, b.tool, a.command, b.command);
  }

  lemma KindNamesDiffer(a: ItemKind, b: ItemKind)
    requires a in TOOL_KINDS && b in TOOL_KINDS
    ensures NoColon(KindName(a))
    ensures KindName(a) == KindName(b) <==> a == b
  {}

  lemma IdentityIsDescribed(item: Item)
    requires item.id == ""
    ensures Identity(item) == KindName(item.kind) + ":" + Described(item)
  {}

  /** With an id the id decides. Without one, and without colons in the names, two tool events are the
      same exactly when kind, names and command are. */
  lemma SameIdentityIff(a: Item, b: Item)
    requires a.kind in TOOL_KINDS && b.kind in TOOL_KINDS
    ensures a.id != "" && b.id != "" ==> (Identity(a) == Identity(b) <==> a.id == b.id)
    ensures a.id == "" && b.id == "" && NamesAreProper(a) && NamesAreProper(b) ==>
      (Identity(a) == Identity(b) <==> SameFields(a, b))
  {
    if a.id == "" && b.id == "" && NamesAreProper(a) && NamesAreProper(b) {
      IdentityIsDescribed(a);
      IdentityIsDescribed(b);
      KindNamesDiffer(a.kind, b.kind);
      KindNamesDiffer(b.kind, a.kind);
      if Identity(a) == Identity(b) {
        ColonSplits(KindName(a.kind), KindName(b.kind), Described(a), Described(b));
        DescribedSplits(a, b);
      }
    }
  }

  predicate NamesAreProper(i: Item) { NoColon(i.name) && NoColon(i.server) && NoColon(i.tool) }

  predicate SameFields(a: Item, b: Item) {
    a.kind == b.kind && a.name == b.name && a.server == b.server && a.tool == b.tool && a.command == b.command
  }

  /** With a colon in a name two different events can be taken for one. */
  lemma IdentitiesCanCollide()
    ensures var a := Item("", McpToolCall, "", "a:b", "", "", "");
      var b := Item("", McpToolCall, "", "a", "b:", "", "");
      !SameFields(a, b) && Identity(a) == Identity(b)
  {
    var a := Item("", McpToolCall, "", "a:b", "", "", "");
    var b := Item("", McpToolCall, "", "a", "b:", "", "");
    IdentityIsDescribed(a);
    IdentityIsDescribed(b);
    assert Described(a) == "a:b:::" && Described(b) == "a:b:::";
  }

  // ---- the answers as one text ----

  /** Where the answer begins in the joined text. */
  function Offset(parts: seq<string>, k: nat): nat
    requires k <= |parts|
  {
    if k == 0 then 0 else Offset(parts, k - 1) + |parts[k - 1]| + 1
  }

  /** This part is at its offset, right after a newline unless it is the first. */
  predicate PartAt(parts: seq<string>, text: string, k: nat)
    requires k < |parts|
  {
    var o := Offset(parts, k);
    && o + |parts[k]| <= |text| && text[o..o + |parts[k]|] == parts[k]
    && (k > 0 ==> text[o - 1] == '\n')
  }

  /** The text is the parts in order, with exactly one newline between neighbours and nothing else. */
  ghost predicate JoinedBy(parts: seq<string>, text: string) {
    && |text| == (if parts == [] then 0 else Offset(parts, |parts|) - 1)
    && (forall k: nat {:trigger PartAt(parts, text, k)} :: k < |parts| ==> PartAt(parts, text, k))
  }

  lemma {:induction false} OffsetShifts(parts: seq<string>, k: nat)
    requires 1 <= k <= |parts|
    ensures Offset(parts, k) == |parts[0]| + 1 + Offset(parts[1..], k - 1)
    decreases k
  {
    if k > 1 {
      OffsetShifts(parts, k - 1);
      assert parts[1..][k - 2] == parts[k - 1];
    }
  }

  lemma {:induction false} JoinMeans(parts: seq<string>)
    ensures JoinedBy(parts, Join(parts))
  {
    if |parts| == 1 {
      assert Offset(parts, 0) == 0 && Offset(parts, 1) == |parts[0]| + 1;
    } else if parts != [] {
      JoinMeans(parts[1..]);
      JoinStep(parts, Join(parts[1..]));
    }
  }

  lemma JoinStep(parts: seq<string>, rest: string)
    requires |parts| > 1 && JoinedBy(parts[1..], rest)
    ensures JoinedBy(parts, parts[0] + "\n" + rest)
  {
    OffsetShifts(parts, |parts|);
    forall k: nat | k < |parts| ensures PartAt(parts, parts[0] + "\n" + rest, k) {
      if k > 0 {
        assert PartAt(parts[1..], rest, k - 1);
        OffsetShifts(parts, k);
        assert parts[1..][k - 1] == parts[k];
        AfterFirst(parts[0], parts[k], rest, Offset(parts[1..], k - 1));
      }
    }
  }

  /** A part at its place in the rest is at the shifted place in the whole. */
  lemma AfterFirst(first: string, part: string, rest: string, o: nat)
    requires o + |part| <= |rest| && rest[o..o + |part|] == part && (o > 0 ==> rest[o - 1] == '\n')
    ensures var text := first + "\n" + rest;
      var n := |first| + 1 + o;
      n + |part| <= |text| && text[n..n + |part|] == part && text[n - 1] == '\n'
  {
    Shifted(first + "\n", rest, o, o + |part|);
  }

  lemma Shifted(a: string, b: string, i: nat, j: nat)
    requires i <= j <= |b|
    ensures (a + b)[|a| + i..|a| + j] == b[i..j]
  {}

  // ---- from lines to the trace that is handed on ----

  function EventOf(line: Line): Option<Event> { if line.Decoded? then Some(line.event) else None }

  ghost function EachLine(lines: seq<Line>): seq<Option<Event>> {
    seq(|lines|, i requires 0 <= i < |lines| => EventOf(lines[i]))
  }

  lemma EventsSnoc(lines: seq<Line>, last: Line)
    ensures Events(lines + [last])
      == if EventOf(last).Some? then Events(lines) + [EventOf(last).value] else Events(lines)
  {
    assert (lines + [last])[..|lines|] == lines;
  }

  /** The events are those of the decoded lines, in order. */
  lemma {:induction false} EventsMean(lines: seq<Line>)
    ensures Picked(Events(lines), EachLine(lines))
  {
    if lines == [] {
      PickedNone<Event>();
      assert EachLine(lines) == [];
    } else {
      EventsMean(lines[..|lines| - 1]);
      EventsMeanSnoc(lines[..|lines| - 1], lines[|lines| - 1]);
      assert lines == lines[..|lines| - 1] + [lines[|lines| - 1]];
    }
  }

  lemma EventsMeanSnoc(lines: seq<Line>, last: Line)
    requires Picked(Events(lines), EachLine(lines))
    ensures Picked(Events(lines + [last]), EachLine(lines + [last]))
  {
    PickedSnoc(Events(lines), EachLine(lines), EventOf(last));
    EventsSnoc(lines, last);
    EachLineSnoc(lines, last);
  }

  lemma EachLineSnoc(lines: seq<Line>, last: Line)
    ensures EachLine(lines + [last]) == EachLine(lines) + [EventOf(last)]
  {}

  /** The trace of these lines: the decoded events in order, every list picked out of them, and the
      completed answers joined by single newlines. */
  ghost predicate TraceOfLines(trace: Trace, sort: Sorter, lines: seq<Line>) {
    exists events, answers: seq<string> ::
      && Picked(events, EachLine(lines))
      && Picked(trace.texts, Each(events, TextOf)) && Picked(answers, Each(events, AnswerOf))
      && JoinedBy(answers, trace.assistant)
      && Sorts(trace.tally, Sortings(sort, events))
  }

  lemma SorterNamesErrors(w: Lists)
    ensures NamesErrors(SorterOf(w))
  {}

  lemma ParsedMeans(w: Lists, lines: seq<Line>)
    requires ParsedTrace(SorterOf(w), lines).Some? && Refused !in lines
    ensures TraceOfLines(ParsedTrace(SorterOf(w), lines).value, SorterOf(w), lines)
  {
    var events := Events(lines);
    var p := Parse(SorterOf(w), events).value;
    EventsMean(lines);
    SorterNamesErrors(w);
    TraceMeans(SorterOf(w), events);
    JoinMeans(p.answers);
  }
}
