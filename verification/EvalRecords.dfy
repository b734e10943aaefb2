/**
 Records of one evaluated case: grading of a parsed trace, the failure records, and the validator
 that every record must pass.
 */
module EvalRecords {
  import opened Base
  import opened ToolNames
  import opened ToolProtocol
  import opened OutputParser
  import Processes
  import Cleanup
  import Receipts
  import opened EvalManager

  // ---- failure reasons ----

  datatype ExceptionClass =
    | FileNotFoundError | KeyError | OSError | PermissionError | ProcessLookupError
    | TimeoutExpired | TypeError | ValueError
    | Derived(name: string, base: ExceptionClass) | Unrelated(name: string)

  datatype Code =
    | Empty
    | ClientVersionCleanupResidue | ClientVersionCleanupUnknown | ClientVersionTimeout
    | Caught(exception: ExceptionClass)
    | MalformedCode | ModelExecutionError | ProcessCleanupResidue | ProcessCleanupUnknown
    | ProcessNonzeroExit | StructuredOutputInvalid
    | ClassName(of: ExceptionClass)
    | CommandEvent | FileEvent | WebEvent | AppEvent | NonSaxoEvent | UnknownEvent | NonGrantEvent
    | ForbiddenToolCalled | OutOfGrantTool | RequiredToolMissing | TranscriptAssertionFailed
    | ExecutableNotFound | OtherCode(name: string)

  predicate HasReason(e: ExceptionClass) { !e.Derived? && !e.Unrelated? }

  /** The fixed reason codes of an unobservable failure; each listed class has one. */
  predicate SafeReason(c: Code) {
    || c in {ClientVersionCleanupResidue, ClientVersionCleanupUnknown, ClientVersionTimeout, MalformedCode,
             ModelExecutionError, ProcessCleanupResidue, ProcessCleanupUnknown, ProcessNonzeroExit,
             StructuredOutputInvalid}
    || (c.Caught? && HasReason(c.exception))
  }

  function ReasonOfCode(c: Code): Code {
    var reason := if c.ClassName? && HasReason(c.of) then Caught(c.of) else c;
    if SafeReason(reason) then reason else ModelExecutionError
  }

  predicate IsInstance(e: ExceptionClass, c: ExceptionClass) {
    || e == c
    || (c == OSError && e in {FileNotFoundError, PermissionError, ProcessLookupError})
    || (e.Derived? && IsInstance(e.base, c))
  }

  /** The table of classes is searched from the special to the general. */
  function ReasonOfException(e: ExceptionClass): Code {
    if IsInstance(e, PermissionError) then Caught(PermissionError)
    else if IsInstance(e, FileNotFoundError) then Caught(FileNotFoundError)
    else if IsInstance(e, ProcessLookupError) then Caught(ProcessLookupError)
    else if IsInstance(e, TimeoutExpired) then Caught(TimeoutExpired)
    else if IsInstance(e, OSError) then Caught(OSError)
    else if IsInstance(e, KeyError) then Caught(KeyError)
    else if IsInstance(e, ValueError) then Caught(ValueError)
    else if IsInstance(e, TypeError) then Caught(TypeError)
    else ModelExecutionError
  }

  /** Both forms of the reduction give a safe reason and agree on every listed class; a class derived
      from one keeps that reason when it is caught and loses it when only its name is known. */
  lemma ReasonsAreSafe(c: Code, e: ExceptionClass)
    ensures SafeReason(ReasonOfCode(c)) && SafeReason(ReasonOfException(e))
    ensures HasReason(e) ==> ReasonOfException(e) == ReasonOfCode(ClassName(e)) == Caught(e)
    ensures e.Derived? && HasReason(e.base) ==>
      ReasonOfException(e) == Caught(e.base) && ReasonOfCode(ClassName(e)) == ModelExecutionError
  {
    if e.Derived? { assert forall c: ExceptionClass :: HasReason(c) ==> (IsInstance(e, c) <==> IsInstance(e.base, c)); }
  }

  // ---- cases, results and records ----

  datatype Harness = Codex | Claude

  datatype Case = Case(
    id: string, requiredTools: seq<string>, requiredGroups: seq<seq<string>>, forbiddenTools: seq<string>,
    exactGrants: seq<string>, requiredAll: seq<string>, requiredAny: seq<string>, forbiddenText: seq<string>)

  datatype ManagedResult = ManagedResult(returncode: int, timedOut: bool, remaining: Option<int>, cleanup: CleanupState)

  datatype RunStatus = RunPassed | RunFailed | RunSkipped | RunPlanned
  datatype Mode = ManifestValidation | ModelExecution
  datatype GradeResult = GradePassed | GradeFailed | GradeNotRequired | GradeUnknown

  datatype Vectors = Vectors(requiredAll: seq<bool>, requiredAny: seq<bool>, forbiddenAbsent: seq<bool>)

  const NO_VECTORS := Vectors([], [], [])

  datatype EventsDigest = EventsDigest(texts: seq<string>)

  datatype Diagnostics = Diagnostics(
    count: Option<nat>, events: Option<EventsDigest>, final: Option<TextDigest>, present: Option<bool>,
    vectors: Vectors)

  const NO_DIAGNOSTICS := Diagnostics(None, None, None, None, NO_VECTORS)

  datatype ProbeStage =
    RuntimeBinding | ContractValidation | CommandStart | CommandExit | PayloadParse | ToolVisibility | ProbeComplete

  datatype Probe = Probe(stage: Option<ProbeStage>, exitCode: Option<int>, stdout: Option<TextDigest>,
                         config: Option<TextDigest>, configPath: Option<TextDigest>)

  const NO_PROBE := Probe(None, None, None, None, None)

  datatype Record = Record(
    caseId: string, harness: Harness, status: RunStatus, mode: Mode, grants: seq<string>,
    transcriptPassed: Option<bool>, noModelCall: bool, noMcpCall: Option<bool>, noSaxoCall: Option<bool>,
    observable: bool, error: Code, hasDecision: bool,
    toolEvents: Option<nat>, commandEvents: Option<nat>, mcpEvents: Option<nat>, saxoEvents: Option<nat>,
    descriptors: Option<seq<Descriptor>>, probe: Probe,
    invoked: Option<seq<string>>, invokedCount: Option<nat>,
    grant: GradeResult, assertions: GradeResult, present: Option<bool>, vectors: Vectors, diagnostics: Diagnostics)

  predicate SmallVectors(v: Vectors) { |v.requiredAll| <= 64 && |v.requiredAny| <= 64 && |v.forbiddenAbsent| <= 64 }

  /** The declared limits of the fields. */
  predicate FieldsFit(r: Record) {
    && (r.descriptors.Some? ==> |r.descriptors.value| <= 128)
    && SmallVectors(r.vectors) && SmallVectors(r.diagnostics.vectors)
    && (r.diagnostics.count.Some? ==> r.diagnostics.count.value <= 1024)
  }

  predicate NoAssistantEvidence(r: Record) {
    r.present.None? && r.vectors == NO_VECTORS && r.diagnostics == NO_DIAGNOSTICS
  }

  predicate ObservabilityFits(r: Record) {
    && (if !r.observable then
          && r.transcriptPassed.None? && r.noMcpCall.None? && r.noSaxoCall.None? && !r.hasDecision
          && r.toolEvents.None? && r.commandEvents.None? && r.mcpEvents.None? && r.saxoEvents.None?
          && r.invoked.None? && r.invokedCount.None? && r.descriptors.None?
          && r.grant == GradeUnknown && r.assertions == GradeUnknown
          && r.status == RunFailed && r.mode == ModelExecution && !r.noModelCall && r.error != Empty
          && NoAssistantEvidence(r)
        else
          && r.transcriptPassed.Some? && r.noMcpCall.Some? && r.noSaxoCall.Some?
          && r.invoked.Some? && r.invokedCount == Some(|r.invoked.value|)
          && r.grant != GradeUnknown && r.assertions != GradeUnknown)
    && (r.error == MalformedCode ==> !r.observable)
  }

  predicate ProbeFits(p: Probe) {
    var completed := p.stage.Some? && p.stage.value in {CommandExit, PayloadParse, ToolVisibility, ProbeComplete};
    && (p.exitCode.None? <==> p.stdout.None?)
    && (completed <==> p.exitCode.Some?)
    && (p.stage == Some(CommandExit) ==> p.exitCode != Some(0))
    && (p.stage.Some? && p.stage.value in {PayloadParse, ToolVisibility, ProbeComplete} ==> p.exitCode == Some(0))
    && (p.config.None? <==> p.configPath.None?)
  }

  predicate DiagnosticsFit(r: Record) {
    var d := r.diagnostics;
    && (r.present.None? ==> r.vectors == NO_VECTORS)
    && (d.count.None? <==> d.events.None? || d.final.None?)
    && (d.present.None? ==> d.vectors == NO_VECTORS)
    && (d.count.None? ==> d.present.None?)
    && (r.harness == Codex && r.error == MalformedCode ==> NoAssistantEvidence(r))
  }

  /** The record's validator. */
  predicate ValidRecord(r: Record) {
    && FieldsFit(r)
    && ObservabilityFits(r)
    && (r.descriptors.Some? && r.mcpEvents.Some? ==> |r.descriptors.value| <= r.mcpEvents.value)
    && ProbeFits(r.probe)
    && DiagnosticsFit(r)
  }

  /** None stands for the validation error. */
  function Build(r: Record): Option<Record> { if ValidRecord(r) then Some(r) else None }

  // ---- grading ----

  datatype Assertions = Assertions(present: bool, vectors: Vectors)

  function Each(values: seq<string>, holds: string -> bool): seq<bool> {
    seq(|values|, i requires 0 <= i < |values| => holds(values[i]))
  }

  /** Case does not matter. */
  predicate Says(transcript: string, value: string) { Contains(Lower(transcript), Lower(value)) }

  predicate Mentions(transcript: string, invoked: seq<string>, value: string) {
    Says(transcript, value) || (StartsWith(value, "saxo_") && value in invoked)
  }

  function Assess(c: Case, transcript: string, invoked: seq<string>): Assertions {
    Assertions(Strip(transcript) != "",
               Vectors(Each(c.requiredAll, v => Mentions(transcript, invoked, v)),
                       Each(c.requiredAny, v => Mentions(transcript, invoked, v)),
                       Each(c.forbiddenText, v => !Says(transcript, v))))
  }

  predicate AssertionsPass(a: Assertions) {
    && (forall b :: b in a.vectors.requiredAll ==> b)
    && (a.vectors.requiredAny != [] ==> true in a.vectors.requiredAny)
    && (forall b :: b in a.vectors.forbiddenAbsent ==> b)
  }

  function GrantName(grant: string): string {
    if StartsWith(grant, CLAUDE_PREFIX) then grant[|CLAUDE_PREFIX|..]
    else if StartsWith(grant, STDIO_PREFIX) then grant[|STDIO_PREFIX|..]
    else if StartsWith(grant, CODEX_PREFIX) then grant[|CODEX_PREFIX|..]
    else if StartsWith(grant, "mcp__") then Bare(grant)
    else grant
  }

  function Granted(c: Case, grants: seq<string>): set<string> {
    if grants == [] then set g | g in c.exactGrants else set g | g in grants :: GrantName(g)
  }

  function SideChannel(t: Tally): Code {
    if t.command != 0 then CommandEvent
    else if t.file != 0 then FileEvent
    else if t.web != 0 then WebEvent
    else if t.app != 0 then AppEvent
    else if t.nonSaxo != 0 then NonSaxoEvent
    else Empty
  }

  predicate RequiredToolsSatisfied(c: Case, invoked: seq<string>, saxo: nat) {
    && (forall t :: t in c.requiredTools ==> t in invoked)
    && (forall g :: g in c.requiredGroups && g != [] ==> exists t :: t in g && t in invoked)
    && (c.requiredTools != [] || (exists g :: g in c.requiredGroups && g != []) ==> saxo > 0)
  }

  function GradingError(c: Case, t: Tally, granted: set<string>, assertionsPassed: bool): Code {
    if SideChannel(t) != Empty then SideChannel(t)
    else if exists x :: x in t.order && x in c.forbiddenTools then ForbiddenToolCalled
    else if exists x :: x in t.order && x !in granted then OutOfGrantTool
    else if !RequiredToolsSatisfied(c, t.order, t.saxo) then RequiredToolMissing
    else if !assertionsPassed then TranscriptAssertionFailed
    else Empty
  }

  /** What grading looks at besides the counters. */
  datatype Evidence = Evidence(final: Assertions, raw: Assertions, granted: set<string>)

  function Gather(c: Case, grants: seq<string>, trace: Trace): Evidence {
    Evidence(Assess(c, trace.assistant, trace.tally.order), Assess(c, Join(trace.texts), trace.tally.order),
             Granted(c, grants))
  }

  function DiagnosticsOf(harness: Harness, trace: Trace, raw: Assertions): Diagnostics {
    if harness != Codex then NO_DIAGNOSTICS
    else Diagnostics(Some(|trace.texts|), Some(EventsDigest(trace.texts)), Some(TextDigest(trace.assistant)),
                     Some(raw.present), raw.vectors)
  }

  predicate GrantOk(t: Tally, granted: set<string>) { (forall x :: x in t.order ==> x in granted) && t.nonSaxo == 0 }

  function Grade(passed: bool): GradeResult { if passed then GradePassed else GradeFailed }

  function Graded(c: Case, harness: Harness, grants: seq<string>, trace: Trace, e: Evidence): Record {
    var t := trace.tally;
    var passed := AssertionsPass(e.final);
    var error := GradingError(c, t, e.granted, passed);
    Record(c.id, harness, if error == Empty then RunPassed else RunFailed, ModelExecution, grants,
           Some(passed), false, Some(t.mcp == 0), Some(t.saxo == 0), true, error, false,
           Some(t.tool), Some(t.command), Some(t.mcp), Some(t.saxo), Some(t.descriptors), NO_PROBE,
           Some(t.order), Some(|t.order|), Grade(GrantOk(t, e.granted)), Grade(passed),
           Some(e.final.present), e.final.vectors, DiagnosticsOf(harness, trace, e.raw))
  }

  function Evaluate(c: Case, harness: Harness, grants: seq<string>, trace: Trace): Record {
    Graded(c, harness, grants, trace, Gather(c, grants, trace))
  }

  /** A failure after the model's output was parsed. */
  function FailedTrace(c: Case, harness: Harness, grants: seq<string>, error: Code, trace: Trace, e: Evidence): Record {
    var t := trace.tally;
    Record(c.id, harness, RunFailed, ModelExecution, grants,
           Some(false), false, Some(t.mcp == 0), Some(t.saxo == 0), true, error, false,
           Some(t.tool), Some(t.command), Some(t.mcp), Some(t.saxo), Some(t.descriptors), NO_PROBE,
           Some(t.order), Some(|t.order|), GradeFailed, GradeFailed,
           Some(e.final.present), e.final.vectors, DiagnosticsOf(harness, trace, e.raw))
  }

  /** A failure before any model was started: nothing was called. */
  function FailedEarly(c: Case, harness: Harness, grants: seq<string>, error: Code): Record {
    Record(c.id, harness, RunFailed, ModelExecution, grants,
           Some(false), false, Some(true), Some(true), true, error, false,
           None, None, None, None, None, NO_PROBE,
           Some([]), Some(0), GradeFailed, GradeFailed, None, NO_VECTORS, NO_DIAGNOSTICS)
  }

  /** A failure after the model was started, without any claim about what the model did. */
  function Unobservable(c: Case, harness: Harness, grants: seq<string>, error: Code): Record {
    Record(c.id, harness, RunFailed, ModelExecution, grants,
           None, false, None, None, false, ReasonOfCode(error), false,
           None, None, None, None, None, NO_PROBE,
           None, None, GradeUnknown, GradeUnknown, None, NO_VECTORS, NO_DIAGNOSTICS)
  }

  function CodeOf(e: ParseError): Code {
    match e
    case NoError => Empty
    case UnknownMcpEvent => UnknownEvent
    case NonSaxoMcpEvent => NonSaxoEvent
    case NonGrantToolEvent => NonGrantEvent
    case MalformedOutput => MalformedCode
  }

  predicate ClaudeUsable(harness: Harness, trace: Trace) {
    harness == Claude && (trace.tally.saxo != 0 || Strip(trace.assistant) != "")
  }

  /** No trace stands for an exception out of the parser. */
  function FromOutput(c: Case, harness: Harness, grants: seq<string>, r: ManagedResult, trace: Option<Trace>): Record {
    if trace.None? then
      Unobservable(c, harness, grants, if r.returncode != 0 then ProcessNonzeroExit else MalformedCode)
    else
      if trace.value.tally.error == MalformedOutput then Unobservable(c, harness, grants, MalformedCode)
      else FromTrace(c, harness, grants, r, trace.value, Gather(c, grants, trace.value))
  }

  function FromTrace(c: Case, harness: Harness, grants: seq<string>, r: ManagedResult, trace: Trace,
                     e: Evidence): Record
  {
    if r.returncode != 0 && !ClaudeUsable(harness, trace) then
      FailedTrace(c, harness, grants, ProcessNonzeroExit, trace, e)
    else if trace.tally.error != NoError then FailedTrace(c, harness, grants, CodeOf(trace.tally.error), trace, e)
    else Graded(c, harness, grants, trace, e)
  }

  function FromProcess(c: Case, harness: Harness, grants: seq<string>, r: ManagedResult, trace: Option<Trace>): Record {
    if r.timedOut then Unobservable(c, harness, grants, ClassName(TimeoutExpired))
    else if r.remaining.None? || r.cleanup == Undetermined then Unobservable(c, harness, grants, ProcessCleanupUnknown)
    else if r.remaining.value > 0 || r.cleanup == Residue then Unobservable(c, harness, grants, ProcessCleanupResidue)
    else FromOutput(c, harness, grants, r, trace)
  }

  /** An error of the operating system around the run. */
  function ProcessError(c: Case, harness: Harness, grants: seq<string>, pending: bool, remaining: Option<int>,
                        error: Code): Record
  {
    if pending || remaining.None? then Unobservable(c, harness, grants, error)
    else FailedEarly(c, harness, grants, error)
  }

  // ---- every record passes the validator ----

  predicate SmallCase(c: Case) { |c.requiredAll| <= 64 && |c.requiredAny| <= 64 && |c.forbiddenText| <= 64 }

  /** The sizes the record type has room for. */
  predicate WithinLimits(c: Case, harness: Harness, trace: Trace) {
    SmallCase(c) && |trace.tally.descriptors| <= 128 && (harness == Codex ==> |trace.texts| <= 1024)
  }

  /** What both parsers promise about a trace that is not the malformed one. */
  predicate TraceFits(t: Tally) { t.error == MalformedOutput || |t.descriptors| <= t.mcp }

  lemma UnobservableIsValid(c: Case, harness: Harness, grants: seq<string>, error: Code)
    ensures ValidRecord(Unobservable(c, harness, grants, error))
  {
    ReasonsAreSafe(error, OSError);
  }

  /** One outcome for each assertion of the case. */
  predicate Measures(v: Vectors, c: Case) {
    |v.requiredAll| == |c.requiredAll| && |v.requiredAny| == |c.requiredAny| && |v.forbiddenAbsent| == |c.forbiddenText|
  }

  lemma GatherMeasures(c: Case, grants: seq<string>, trace: Trace)
    ensures var e := Gather(c, grants, trace); Measures(e.final.vectors, c) && Measures(e.raw.vectors, c)
  {}

  lemma GradedIsValidIff(c: Case, harness: Harness, grants: seq<string>, trace: Trace, e: Evidence)
    requires TraceFits(trace.tally) && trace.tally.error != MalformedOutput
    requires Measures(e.final.vectors, c) && Measures(e.raw.vectors, c)
    ensures ValidRecord(Graded(c, harness, grants, trace, e)) <==> WithinLimits(c, harness, trace)
    ensures Graded(c, harness, grants, trace, e).observable
  {}

  lemma FailedIsValidIff(c: Case, harness: Harness, grants: seq<string>, error: Code, trace: Trace, e: Evidence)
    requires error != MalformedCode && TraceFits(trace.tally) && trace.tally.error != MalformedOutput
    requires Measures(e.final.vectors, c) && Measures(e.raw.vectors, c)
    ensures ValidRecord(FailedTrace(c, harness, grants, error, trace, e)) <==> WithinLimits(c, harness, trace)
    ensures FailedTrace(c, harness, grants, error, trace, e).observable
  {}

  /** The model's output was not observed. */
  predicate Unseen(r: ManagedResult, trace: Option<Trace>) {
    || r.timedOut || r.remaining.None? || r.remaining.value > 0 || r.cleanup in {Undetermined, Residue}
    || trace.None? || trace.value.tally.error == MalformedOutput
  }

  lemma UnseenClaimsNothing(c: Case, harness: Harness, grants: seq<string>, r: ManagedResult, trace: Option<Trace>)
    requires Unseen(r, trace)
    ensures exists error :: FromProcess(c, harness, grants, r, trace) == Unobservable(c, harness, grants, error)
  {
    var error :=
      if r.timedOut then ClassName(TimeoutExpired)
      else if r.remaining.None? || r.cleanup == Undetermined then ProcessCleanupUnknown
      else if r.remaining.value > 0 || r.cleanup == Residue then ProcessCleanupResidue
      else if trace.None? && r.returncode != 0 then ProcessNonzeroExit
      else MalformedCode;
    assert FromProcess(c, harness, grants, r, trace) == Unobservable(c, harness, grants, error);
  }

  lemma SeenIsGradedOrFailed(c: Case, harness: Harness, grants: seq<string>, r: ManagedResult, trace: Trace)
    requires !Unseen(r, Some(trace))
    ensures var e, record := Gather(c, grants, trace), FromProcess(c, harness, grants, r, Some(trace));
      || record == Graded(c, harness, grants, trace, e)
      || record == FailedTrace(c, harness, grants, ProcessNonzeroExit, trace, e)
      || record == FailedTrace(c, harness, grants, CodeOf(trace.tally.error), trace, e)
  {}

  /** A record is marked unknown exactly when the output was not observed, and can be built exactly
      when it then claims nothing or the observed output is within the limits of its fields. */
  lemma RecordIsValidIff(c: Case, harness: Harness, grants: seq<string>, r: ManagedResult, trace: Option<Trace>)
    requires trace.Some? ==> TraceFits(trace.value.tally)
    ensures var record := FromProcess(c, harness, grants, r, trace);
      && (!record.observable <==> Unseen(r, trace))
      && (Build(record).Some? <==> Unseen(r, trace) || WithinLimits(c, harness, trace.value))
  {
    if Unseen(r, trace) {
      UnseenClaimsNothing(c, harness, grants, r, trace);
      var error :| FromProcess(c, harness, grants, r, trace) == Unobservable(c, harness, grants, error);
      UnobservableIsValid(c, harness, grants, error);
    } else {
      var e := Gather(c, grants, trace.value);
      SeenIsGradedOrFailed(c, harness, grants, r, trace.value);
      GatherMeasures(c, grants, trace.value);
      GradedIsValidIff(c, harness, grants, trace.value, e);
      FailedIsValidIff(c, harness, grants, ProcessNonzeroExit, trace.value, e);
      FailedIsValidIff(c, harness, grants, CodeOf(trace.value.tally.error), trace.value, e);
    }
  }

  /** For the Codex harness the trace comes from the parser, which raises or gives a fitting trace. */
  lemma CodexRecordIsValid(w: Lists, c: Case, grants: seq<string>, r: ManagedResult, lines: seq<Line>)
    requires var trace := ParsedTrace(SorterOf(w), lines); trace.Some? ==> WithinLimits(c, Codex, trace.value)
    ensures Build(FromProcess(c, Codex, grants, r, ParsedTrace(SorterOf(w), lines))).Some?
  {
    var trace := ParsedTrace(SorterOf(w), lines);
    if trace.Some? { TraceConserves(w, lines); }
    RecordIsValidIff(c, Codex, grants, r, trace);
  }

  /** What an observable record reports adds up: calls are listed one by one, MCP events are calls or
      described events, and the "no call" flags say that there was none. */
  predicate ReportsAddUp(r: Record) {
    && r.toolEvents.Some? && r.commandEvents.Some? && r.mcpEvents.Some? && r.saxoEvents.Some?
    && r.invoked.Some? && r.descriptors.Some?
    && |r.invoked.value| == r.saxoEvents.value
    && r.mcpEvents.value == r.saxoEvents.value + |r.descriptors.value|
    && r.commandEvents.value + r.mcpEvents.value <= r.toolEvents.value
    && r.noMcpCall == Some(r.mcpEvents.value == 0) && r.noSaxoCall == Some(r.invoked.value == [])
  }

  lemma CodexReportsAddUp(w: Lists, c: Case, grants: seq<string>, r: ManagedResult, lines: seq<Line>)
    ensures var trace := ParsedTrace(SorterOf(w), lines);
      var record := FromProcess(c, Codex, grants, r, trace);
      record.observable ==> ReportsAddUp(record) && record.toolEvents == Some(trace.value.tally.tool)
  {
    var trace := ParsedTrace(SorterOf(w), lines);
    if !Unseen(r, trace) {
      TraceConserves(w, lines);
      SeenIsGradedOrFailed(c, Codex, grants, r, trace.value);
    } else {
      UnseenClaimsNothing(c, Codex, grants, r, trace);
    }
  }

  /** A run's own result: with the counts and the state of its snapshot, cleanup matters exactly when
      it did not pass. */
  lemma RunResultUnseen(s: Cleanup.Snapshot, returncode: int, timedOut: bool, trace: Option<Trace>)
    ensures var n := Receipts.RemainingProcesses(s);
      var r := ManagedResult(returncode, timedOut, if n.Some? then Some(n.value) else None, Judged(s));
      Unseen(r, trace) <==> timedOut || Judged(s) != Passed || trace.None? || trace.value.tally.error == MalformedOutput
  {
    Receipts.GroupsAndProcesses(s.targets);
  }

  lemma ProcessErrorIsValid(c: Case, harness: Harness, grants: seq<string>, pending: bool, remaining: Option<int>,
                            error: Code)
    requires error != MalformedCode
    ensures var record := ProcessError(c, harness, grants, pending, remaining, error);
      ValidRecord(record) && (!record.observable <==> pending || remaining.None?)
  {
    UnobservableIsValid(c, harness, grants, error);
  }

  // ---- what a pass means ----

  lemma {:induction false} EachHolds(values: seq<string>, holds: string -> bool)
    ensures (forall b :: b in Each(values, holds) ==> b) <==> forall v :: v in values ==> holds(v)
    ensures true in Each(values, holds) <==> exists v :: v in values && holds(v)
    ensures Each(values, holds) == [] <==> values == []
  {
    var bits := Each(values, holds);
    forall i | 0 <= i < |values| ensures bits[i] in bits && values[i] in values && bits[i] == holds(values[i]) {}
    forall v | v in values ensures holds(v) in bits {
      var i :| 0 <= i < |values| && values[i] == v;
      assert bits[i] == holds(v);
    }
  }

  /** The transcript's assertions pass exactly when it says (or does) everything required, something
      of the alternatives if there are any, and nothing forbidden. */
  lemma AssertionsMean(c: Case, transcript: string, invoked: seq<string>)
    ensures AssertionsPass(Assess(c, transcript, invoked)) <==>
      && (forall v :: v in c.requiredAll ==> Mentions(transcript, invoked, v))
      && (c.requiredAny != [] ==> exists v :: v in c.requiredAny && Mentions(transcript, invoked, v))
      && (forall v :: v in c.forbiddenText ==> !Says(transcript, v))
  {
    EachHolds(c.requiredAll, v => Mentions(transcript, invoked, v));
    EachHolds(c.requiredAny, v => Mentions(transcript, invoked, v));
    EachHolds(c.forbiddenText, v => !Says(transcript, v));
  }

  /** Only granted, unforbidden Saxo tools were used, and all that were required. */
  predicate UsesAsAsked(c: Case, t: Tally, granted: set<string>) {
    && t.command == t.file == t.web == t.app == t.nonSaxo == 0
    && (forall x :: x in t.order ==> x in granted && x !in c.forbiddenTools)
    && RequiredToolsSatisfied(c, t.order, t.saxo)
  }

  lemma GradingIsEmptyIff(c: Case, t: Tally, granted: set<string>, passed: bool)
    ensures GradingError(c, t, granted, passed) == Empty <==> UsesAsAsked(c, t, granted) && passed
  {}

  /** A case passes exactly when the tools were used as asked and the assertions hold. */
  lemma PassMeans(c: Case, harness: Harness, grants: seq<string>, trace: Trace)
    ensures Evaluate(c, harness, grants, trace).status == RunPassed <==>
      UsesAsAsked(c, trace.tally, Granted(c, grants)) && AssertionsPass(Assess(c, trace.assistant, trace.tally.order))
  {
    var e := Gather(c, grants, trace);
    GradingIsEmptyIff(c, trace.tally, e.granted, AssertionsPass(e.final));
  }

  /** In a passed Codex case every tool event was a Saxo call or protocol noise. */
  lemma PassUsesOnlySaxo(c: Case, w: Lists, grants: seq<string>, trace: Trace)
    requires Conserved(trace.tally, w) && Evaluate(c, Codex, grants, trace).status == RunPassed
    ensures trace.tally.tool == |trace.tally.order| + |trace.tally.descriptors|
    ensures trace.tally.error == NoError
  {
    PassMeans(c, Codex, grants, trace);
  }

  // ---- which record a run gives ----

  /** The exit code does not stand in the way: it is zero, or a Claude run said or called something. */
  predicate ExitIsUsable(harness: Harness, r: ManagedResult, trace: Trace) {
    r.returncode == 0 || (harness == Claude && (trace.tally.saxo != 0 || Strip(trace.assistant) != ""))
  }

  /** A run passes exactly when its output was observed without a parse error, its exit is usable, the
      tools were used as asked and the answer says what the case wants. */
  lemma RunPassesIff(c: Case, harness: Harness, grants: seq<string>, r: ManagedResult, trace: Option<Trace>)
    ensures FromProcess(c, harness, grants, r, trace).status == RunPassed <==>
      && !Unseen(r, trace) && trace.value.tally.error == NoError && ExitIsUsable(harness, r, trace.value)
      && UsesAsAsked(c, trace.value.tally, Granted(c, grants))
      && AssertionsPass(Assess(c, trace.value.assistant, trace.value.tally.order))
  {
    if Unseen(r, trace) {
      UnseenClaimsNothing(c, harness, grants, r, trace);
    } else {
      SeenPassesIff(c, harness, grants, r, trace.value);
    }
  }

  lemma SeenPassesIff(c: Case, harness: Harness, grants: seq<string>, r: ManagedResult, trace: Trace)
    requires !Unseen(r, Some(trace))
    ensures FromProcess(c, harness, grants, r, Some(trace)).status == RunPassed <==>
      && trace.tally.error == NoError && ExitIsUsable(harness, r, trace)
      && UsesAsAsked(c, trace.tally, Granted(c, grants))
      && AssertionsPass(Assess(c, trace.assistant, trace.tally.order))
  {
    TracePassesIff(c, harness, grants, r, trace, Gather(c, grants, trace));
  }

  lemma TracePassesIff(c: Case, harness: Harness, grants: seq<string>, r: ManagedResult, trace: Trace, e: Evidence)
    ensures FromTrace(c, harness, grants, r, trace, e).status == RunPassed <==>
      && trace.tally.error == NoError && ExitIsUsable(harness, r, trace)
      && UsesAsAsked(c, trace.tally, e.granted) && AssertionsPass(e.final)
  {
    GradingIsEmptyIff(c, trace.tally, e.granted, AssertionsPass(e.final));
  }

  /** The error of an unobserved run: the deadline first, then the state of the cleanup, then the output. */
  predicate UnseenError(r: ManagedResult, trace: Option<Trace>, error: Code) {
    if r.timedOut then error == Caught(TimeoutExpired)
    else if r.remaining.None? || r.cleanup == Undetermined then error == ProcessCleanupUnknown
    else if r.remaining.value > 0 || r.cleanup == Residue then error == ProcessCleanupResidue
    else if trace.None? && r.returncode != 0 then error == ProcessNonzeroExit
    else error == MalformedCode
  }

  /** The error of an observed run: an unusable exit, then the parse error, then what grading found. */
  predicate SeenError(c: Case, harness: Harness, r: ManagedResult, trace: Trace, granted: set<string>, a: Assertions,
                      error: Code)
  {
    if !ExitIsUsable(harness, r, trace) then error == ProcessNonzeroExit
    else if trace.tally.error == UnknownMcpEvent then error == UnknownEvent
    else if trace.tally.error == NonSaxoMcpEvent then error == NonSaxoEvent
    else if trace.tally.error == NonGrantToolEvent then error == NonGrantEvent
    else GradedError(c, trace.tally, granted, a, error)
  }

  /** Tools outside the protocol first, then what was called, then what is missing. */
  predicate GradedError(c: Case, t: Tally, granted: set<string>, a: Assertions, error: Code) {
    && (error == CommandEvent <==> t.command > 0)
    && (error == FileEvent <==> t.command == 0 && t.file > 0)
    && (error == WebEvent <==> t.command == t.file == 0 && t.web > 0)
    && (error == AppEvent <==> t.command == t.file == t.web == 0 && t.app > 0)
    && (error == NonSaxoEvent <==> NoSideTool(t) && t.nonSaxo > 0)
    && (error == ForbiddenToolCalled <==> OnlySaxo(t) && exists x :: x in t.order && x in c.forbiddenTools)
    && (error == OutOfGrantTool <==>
          && OnlySaxo(t) && (forall x :: x in t.order ==> x !in c.forbiddenTools)
          && exists x :: x in t.order && x !in granted)
    && (error == RequiredToolMissing <==>
          OnlySaxo(t) && AllowedCalls(c, t, granted) && !RequiredToolsSatisfied(c, t.order, t.saxo))
    && (error == TranscriptAssertionFailed <==> UsesAsAsked(c, t, granted) && !AssertionsPass(a))
    && (error == Empty <==> UsesAsAsked(c, t, granted) && AssertionsPass(a))
  }

  predicate NoSideTool(t: Tally) { t.command == t.file == t.web == t.app == 0 }

  predicate OnlySaxo(t: Tally) { NoSideTool(t) && t.nonSaxo == 0 }

  predicate AllowedCalls(c: Case, t: Tally, granted: set<string>) {
    forall x :: x in t.order ==> x in granted && x !in c.forbiddenTools
  }

  lemma GradingErrorMeans(c: Case, t: Tally, granted: set<string>, a: Assertions)
    ensures GradedError(c, t, granted, a, GradingError(c, t, granted, AssertionsPass(a)))
  {}

  /** The error of every record, in the order in which the reasons are looked at. */
  lemma RunErrorMeans(c: Case, harness: Harness, grants: seq<string>, r: ManagedResult, trace: Option<Trace>)
    ensures var record := FromProcess(c, harness, grants, r, trace);
      if Unseen(r, trace) then !record.observable && UnseenError(r, trace, record.error)
      else
        var t := trace.value;
        && record.observable
        && SeenError(c, harness, r, t, Granted(c, grants), Assess(c, t.assistant, t.tally.order), record.error)
  {
    if !Unseen(r, trace) { TraceErrorMeans(c, harness, grants, r, trace.value, Gather(c, grants, trace.value)); }
  }

  lemma TraceErrorMeans(c: Case, harness: Harness, grants: seq<string>, r: ManagedResult, trace: Trace, e: Evidence)
    requires trace.tally.error != MalformedOutput
    ensures FromTrace(c, harness, grants, r, trace, e).observable
    ensures SeenError(c, harness, r, trace, e.granted, e.final, FromTrace(c, harness, grants, r, trace, e).error)
  {
    GradingErrorMeans(c, trace.tally, e.granted, e.final);
  }

  /** What an observed run claims of the tools and the answer: granted tools only, and the assertions;
      a run that was not graded claims neither. */
  lemma GradesMean(c: Case, harness: Harness, grants: seq<string>, r: ManagedResult, trace: Trace)
    requires !Unseen(r, Some(trace))
    ensures var record := FromProcess(c, harness, grants, r, Some(trace));
      var graded := ExitIsUsable(harness, r, trace) && trace.tally.error == NoError;
      && (record.grant == GradePassed <==> graded && GrantOk(trace.tally, Granted(c, grants)))
      && (record.assertions == GradePassed <==>
            graded && AssertionsPass(Assess(c, trace.assistant, trace.tally.order)))
      && record.invoked == Some(trace.tally.order)
      && record.vectors == Assess(c, trace.assistant, trace.tally.order).vectors
  {}
}
