/**
 What each read of the cleanup means: pass, a flagged diagnostic with its private observation, or
 a rejected record. A cleanup's coverage, diagnostic and observations are one fold over its reads.
 */
module Judging {
  import opened Base
  import opened Processes
  import opened OperatingSystem

  // ---- terminal views of captured identities ----

  datatype TerminalState = EndRunning | EndZombie | EndAbsent | EndReused | EndUnknown
  datatype Outcome = NoLongerRunning | NonExecutingZombie | OtherIdentity | StillAlive | OutcomeUnknown

  datatype Target = Target(
    pid: int, pgid: int, birthSha: Digest, terminalSha: Option<Digest>,
    terminal: TerminalState, outcome: Outcome)

  function ExpectedOutcome(t: TerminalState): Outcome {
    match t
    case EndAbsent => NoLongerRunning
    case EndZombie => NonExecutingZombie
    case EndReused => OtherIdentity
    case EndRunning => StillAlive
    case EndUnknown => OutcomeUnknown
  }

  /** The target record's own validator. */
  predicate ValidTarget(t: Target) {
    && t.pid > 0 && t.pgid > 0
    && t.outcome == ExpectedOutcome(t.terminal)
    && (if t.terminal in {EndAbsent, EndUnknown} then t.terminalSha.None?
        else
          && t.terminalSha.Some?
          && (if t.terminal == EndReused then t.terminalSha.value != t.birthSha
              else t.terminalSha.value == t.birthSha))
  }

  function ObserveTarget(id: Identity, obs: Option<Observation>): Target {
    var sha := TextSha(id.birth);
    if obs.None? then Target(id.pid, id.pgid, sha, None, EndAbsent, NoLongerRunning)
    else if obs.value.state == Unreadable then Target(id.pid, id.pgid, sha, None, EndUnknown, OutcomeUnknown)
    else
      var seen := Some(TextSha(obs.value.birth));
      if obs.value.birth != id.birth then Target(id.pid, id.pgid, sha, seen, EndReused, OtherIdentity)
      else if obs.value.state == Zombie then Target(id.pid, id.pgid, sha, seen, EndZombie, NonExecutingZombie)
      else Target(id.pid, id.pgid, sha, seen, EndRunning, StillAlive)
  }

  /** One read always gives a consistent terminal view, and the outcome says what was read. */
  lemma TargetMeansRead(id: Identity, obs: Option<Observation>)
    ensures ValidTarget(ObserveTarget(id, obs)) <==> id.pid > 0 && id.pgid > 0
    ensures ObserveTarget(id, obs).outcome == StillAlive <==> RunsAs(obs, id)
    ensures ObserveTarget(id, obs).outcome == OutcomeUnknown <==> obs.Some? && obs.value.state == Unreadable
  {}

  // ---- verdict of one read ----

  datatype Verdict = Pass | Flag(why: Diagnostic, offence: Option<Offence>) | Reject

  datatype Context = Context(ids: map<int, Identity>, observed: seq<Identity>, pidGroups: set<(int, int)>)

  function Report(why: Subreason, offence: Option<Offence>): Verdict {
    if offence.None? then Reject else Flag(Diagnostic(GroupMember, why), offence)
  }

  /** A listed group member against the identities captured before cleanup. */
  function JudgeMember(ids: map<int, Identity>, source: Source, pgid: int, pid: int,
                       obs: Option<Observation>): Verdict
  {
    var existing := if pid in ids then Some(ids[pid]) else None;
    var birth := if existing.Some? then Some(existing.value.birth) else None;
    if obs.None? then
      if existing.Some? then Pass
      else Report(UncapturedMember, MakeOffence(pid, pgid, obs, source, AdmissionClosed, Some(SeenAbsent), None))
    else if obs.value.state == Unreadable then
      Report(ObservationUnknown, MakeOffence(pid, pgid, obs, source, AdmissionClosed, Some(SeenUnknown), birth))
    else if obs.value.pgid != pgid then
      Report(ChangedIdentityOrGroup, MakeOffence(pid, pgid, obs, source, AdmissionClosed, Some(GroupChanged), birth))
    else if existing.Some? then
      if existing.value.pgid != pgid || existing.value.birth != obs.value.birth then
        Report(ChangedIdentityOrGroup,
               MakeOffence(pid, pgid, obs, source, AdmissionClosed,
                           Some(if existing.value.pgid != pgid then GroupChanged else IdentityChanged), birth))
      else Pass
    else Report(UncapturedMember, MakeOffence(pid, pgid, obs, source, AdmissionClosed, None, None))
  }

  function History(observed: seq<Identity>, pid: int): seq<Identity> {
    if observed == [] then []
    else (if observed[0].pid == pid then [observed[0]] else []) + History(observed[1..], pid)
  }

  function SameBirth(history: seq<Identity>, birth: string): seq<Identity> {
    if history == [] then []
    else (if history[0].birth == birth then [history[0]] else []) + SameBirth(history[1..], birth)
  }

  function FirstInGroup(history: seq<Identity>, pgid: int): Option<Identity> {
    if history == [] then None
    else if history[0].pgid == pgid then Some(history[0])
    else FirstInGroup(history[1..], pgid)
  }

  function GroupsOf(pidGroups: set<(int, int)>, pid: int): set<int> {
    set b | b in pidGroups && b.0 == pid :: b.1
  }

  function Expected(history: seq<Identity>, obs: Option<Observation>): Option<Identity> {
    var matching := if obs.Some? then SameBirth(history, obs.value.birth) else [];
    var inGroup := if obs.Some? then FirstInGroup(matching, obs.value.pgid) else None;
    if inGroup.Some? then inGroup
    else if matching != [] then Some(matching[0])
    else if history != [] then Some(history[0])
    else None
  }

  /** A tracked pid that is not a target, against every birth observed for it. */
  function JudgeHistory(ctx: Context, pid: int, obs: Option<Observation>): Verdict {
    var history := History(ctx.observed, pid);
    var expected := Expected(history, obs);
    var birth := if expected.Some? then Some(expected.value.birth) else None;
    if obs.None? then Pass
    else if obs.value.state == Unreadable then
      Report(ObservationUnknown,
             MakeOffence(pid, if expected.Some? then expected.value.pgid else obs.value.pgid,
                         obs, FromHistory, AdmissionClosed, Some(SeenUnknown), birth))
    else if history != [] && SameBirth(history, obs.value.birth) == [] then Pass
    else if obs.value.state != Zombie then
      var moved := expected.Some? && obs.value.pgid != expected.value.pgid;
      var groups := GroupsOf(ctx.pidGroups, pid);
      Report(if moved then ChangedIdentityOrGroup else UncapturedMember,
             MakeOffence(pid,
                         if expected.Some? then expected.value.pgid
                         else if groups != {} then Minimum(groups) else obs.value.pgid,
                         obs, FromHistory, AdmissionClosed, if moved then Some(GroupChanged) else None, birth))
    else Pass
  }

  function JudgeTarget(id: Identity, obs: Option<Observation>): Verdict {
    var t := ObserveTarget(id, obs);
    if !ValidTarget(t) then Reject
    else if t.outcome == OutcomeUnknown then Flag(Diagnostic(TargetObservation, ObservationUnknown), None)
    else Pass
  }

  const TABLE_INCOMPLETE := Diagnostic(GroupTableStage, TableIncomplete)

  function Judge(ctx: Context, e: Event): Verdict {
    match e
    case GroupTable(_, _, _, complete) => if complete then Pass else Flag(TABLE_INCOMPLETE, None)
    case Read(LeaderProbe(_, _), _, obs) =>
      if obs.Some? && obs.value.state == Unreadable then Flag(TABLE_INCOMPLETE, None) else Pass
    case Read(GroupScan(source, pgid), pid, obs) => JudgeMember(ctx.ids, source, pgid, pid, obs)
    case Read(TargetVerdict, pid, obs) => if pid in ctx.ids then JudgeTarget(ctx.ids[pid], obs) else Pass
    case Read(HistoryCheck, pid, obs) => JudgeHistory(ctx, pid, obs)
    case _ => Pass
  }

  // ---- the fold ----

  datatype Findings = Findings(why: Option<Diagnostic>, offences: seq<Offence>, rejected: bool)

  const NOTHING := Findings(None, [], false)

  function Note(f: Findings, v: Verdict): Findings {
    match v
    case Pass => f
    case Flag(why, offence) =>
      Findings(Or(f.why, Some(why)), f.offences + (if offence.Some? then [offence.value] else []), f.rejected)
    case Reject => f.(rejected := true)
  }

  ghost function Scan(ctx: Context, f: Findings, seg: seq<Event>): Findings {
    if seg == [] then f else Note(Scan(ctx, f, seg[..|seg| - 1]), Judge(ctx, seg[|seg| - 1]))
  }

  /** Findings made later on top of findings made earlier. */
  function Then(f: Findings, g: Findings): Findings {
    Findings(Or(f.why, g.why), f.offences + g.offences, f.rejected || g.rejected)
  }

  lemma {:induction false} ScanConcat(ctx: Context, f: Findings, a: seq<Event>, b: seq<Event>)
    ensures Scan(ctx, f, a + b) == Scan(ctx, Scan(ctx, f, a), b)
  {
    if b == [] {
      assert a + b == a;
    } else {
      assert (a + b)[..|a + b| - 1] == a + b[..|b| - 1];
      ScanConcat(ctx, f, a, b[..|b| - 1]);
    }
  }

  lemma {:induction false} ScanFrom(ctx: Context, f: Findings, seg: seq<Event>)
    ensures Scan(ctx, f, seg) == Then(f, Scan(ctx, NOTHING, seg))
  {
    if seg == [] {
      assert f.offences + [] == f.offences;
    } else {
      var front, v := seg[..|seg| - 1], Judge(ctx, seg[|seg| - 1]);
      ScanFrom(ctx, f, front);
      var g := Scan(ctx, NOTHING, front);
      if v.Flag? {
        var o := if v.offence.Some? then [v.offence.value] else [];
        assert (f.offences + g.offences) + o == f.offences + (g.offences + o);
      }
    }
  }

  lemma ScanAppend(ctx: Context, a: seq<Event>, b: seq<Event>)
    ensures Scan(ctx, NOTHING, a + b) == Then(Scan(ctx, NOTHING, a), Scan(ctx, NOTHING, b))
  {
    ScanConcat(ctx, NOTHING, a, b);
    ScanFrom(ctx, Scan(ctx, NOTHING, a), b);
  }

  lemma ScanOne(ctx: Context, e: Event)
    ensures Scan(ctx, NOTHING, [e]) == Note(NOTHING, Judge(ctx, e))
  {
    assert [e][..0] == [];
  }

  predicate Quiet(ctx: Context, seg: seq<Event>) { forall e :: e in seg ==> Judge(ctx, e) == Pass }

  /** Nothing is found exactly when every read passes. */
  lemma {:induction false} CleanIffQuiet(ctx: Context, seg: seq<Event>)
    ensures (Scan(ctx, NOTHING, seg).why.None? && !Scan(ctx, NOTHING, seg).rejected) <==> Quiet(ctx, seg)
    ensures Quiet(ctx, seg) ==> Scan(ctx, NOTHING, seg) == NOTHING
  {
    if seg != [] {
      CleanIffQuiet(ctx, seg[..|seg| - 1]);
      assert seg == seg[..|seg| - 1] + [seg[|seg| - 1]];
    }
  }

  // ---- what the verdicts mean ----

  /** An allowed pair, and for a group-member pair a valid observation in a matching state. */
  predicate WellFounded(v: Verdict) {
    v.Flag? ==>
      && AllowedPair(v.why)
      && (v.offence.Some? ==> ValidOffence(v.offence.value))
      && (v.why.stage == GroupMember ==> v.offence.Some? && v.offence.value.state in WitnessStates(v.why.subreason))
  }

  lemma ReportIsWellFounded(why: Subreason, offence: Option<Offence>)
    requires AllowedPair(Diagnostic(GroupMember, why))
    requires offence.Some? ==> ValidOffence(offence.value) && offence.value.state in WitnessStates(why)
    ensures WellFounded(Report(why, offence))
  {}

  lemma MemberFlagWellFounded(ids: map<int, Identity>, source: Source, pgid: int, pid: int, obs: Option<Observation>)
    ensures WellFounded(JudgeMember(ids, source, pgid, pid, obs))
  {
    var birth := if pid in ids then Some(ids[pid].birth) else None;
    if obs.None? {
      ReportIsWellFounded(UncapturedMember,
                          MakeOffence(pid, pgid, obs, source, AdmissionClosed, Some(SeenAbsent), None));
    } else if obs.value.state == Unreadable {
      ReportIsWellFounded(ObservationUnknown,
                          MakeOffence(pid, pgid, obs, source, AdmissionClosed, Some(SeenUnknown), birth));
    } else if obs.value.pgid != pgid || (pid in ids && ids[pid].pgid != pgid) {
      ReportIsWellFounded(ChangedIdentityOrGroup,
                          MakeOffence(pid, pgid, obs, source, AdmissionClosed, Some(GroupChanged), birth));
    } else if pid in ids {
      ReportIsWellFounded(ChangedIdentityOrGroup,
                          MakeOffence(pid, pgid, obs, source, AdmissionClosed, Some(IdentityChanged), birth));
    } else {
      ReportIsWellFounded(UncapturedMember, MakeOffence(pid, pgid, obs, source, AdmissionClosed, None, None));
    }
  }

  lemma HistoryFlagWellFounded(ctx: Context, pid: int, obs: Option<Observation>)
    ensures WellFounded(JudgeHistory(ctx, pid, obs))
  {}

  lemma FlagIsWitnessed(ctx: Context, e: Event)
    ensures WellFounded(Judge(ctx, e))
  {
    match e
    case Read(GroupScan(source, pgid), pid, obs) => MemberFlagWellFounded(ctx.ids, source, pgid, pid, obs);
    case Read(HistoryCheck, pid, obs) => HistoryFlagWellFounded(ctx, pid, obs);
    case _ =>
  }

  lemma {:induction false} FindingsAreWitnessed(ctx: Context, seg: seq<Event>)
    ensures var f := Scan(ctx, NOTHING, seg);
      && AllValid(f.offences)
      && (f.why.Some? ==> AllowedPair(f.why.value))
      && Witnessed(f.why, f.offences)
      && (f.offences != [] ==> f.why.Some?)
  {
    if seg != [] {
      var front, e := seg[..|seg| - 1], seg[|seg| - 1];
      FindingsAreWitnessed(ctx, front);
      var g, v := Scan(ctx, NOTHING, front), Judge(ctx, e);
      if v.Flag? {
        FlagIsWitnessed(ctx, e);
        var f := Scan(ctx, NOTHING, seg);
        if v.offence.Some? {
          assert f.offences[|f.offences| - 1] == v.offence.value;
          assert v.offence.value in f.offences;
        }
        assert forall o :: o in g.offences ==> o in f.offences;
      }
    }
  }

  /** Captured, and either gone or unchanged in birth and group. */
  predicate CapturedUnchanged(ids: map<int, Identity>, pgid: int, pid: int, obs: Option<Observation>) {
    && pid in ids
    && (obs.None?
        || (&& obs.value.state != Unreadable && obs.value.pgid == pgid
            && ids[pid].pgid == pgid && ids[pid].birth == obs.value.birth))
  }

  /** A group member passes exactly when it is captured and either gone or unchanged. */
  lemma MemberPasses(ids: map<int, Identity>, source: Source, pgid: int, pid: int, obs: Option<Observation>)
    ensures JudgeMember(ids, source, pgid, pid, obs) == Pass <==> CapturedUnchanged(ids, pgid, pid, obs)
  {}

  /** A captured process is read alive in this group, which is not the one it was captured in, or with
      another birth although no birth was captured. */
  predicate CapturedElsewhere(ids: map<int, Identity>, pgid: int, pid: int, obs: Option<Observation>) {
    && pid in ids && Readable(obs) && obs.value.pgid == pgid
    && (ids[pid].pgid != pgid || (ids[pid].birth == "" && obs.value.birth != ""))
  }

  /** The record of a member cannot be built exactly when a captured process is read alive in a tracked
      group other than its own, or when the member is suspicious and the read does not fit a record. */
  lemma MemberRejected(ids: map<int, Identity>, source: Source, pgid: int, pid: int, obs: Option<Observation>)
    ensures JudgeMember(ids, source, pgid, pid, obs) == Reject <==>
      || CapturedElsewhere(ids, pgid, pid, obs)
      || (!CapturedUnchanged(ids, pgid, pid, obs) && Unfit(pid, pgid, obs))
  {
    var birth := if pid in ids then Some(ids[pid].birth) else None;
    if obs.None? {
      AbsentFails(pid, pgid, source, AdmissionClosed, None);
    } else if obs.value.state == Unreadable {
      UnreadableFails(pid, pgid, obs, source, AdmissionClosed, birth);
    } else if obs.value.pgid != pgid || (pid in ids && ids[pid].pgid != pgid) {
      MovedFails(pid, pgid, obs, source, AdmissionClosed, birth);
    } else if pid in ids {
      ReplacedFails(pid, pgid, obs, source, AdmissionClosed, ids[pid].birth);
    } else {
      PlainFails(pid, pgid, obs, source, AdmissionClosed, None);
    }
  }

  /** It happens: a process captured in group 10 is found in the tracked group 20. */
  lemma MemberCanBeRejected(source: Source)
    ensures JudgeMember(map[10 := Identity(10, 10, "birth", Running)], source, 20, 10,
                        Some(Observation(10, 20, "birth", Running, Some(1), Untagged))) == Reject
  {
    MemberRejected(map[10 := Identity(10, 10, "birth", Running)], source, 20, 10,
                   Some(Observation(10, 20, "birth", Running, Some(1), Untagged)));
  }

  lemma {:induction false} SameBirthEmpty(observed: seq<Identity>, pid: int, birth: string)
    ensures SameBirth(History(observed, pid), birth) == [] <==>
      forall id :: id in observed && id.pid == pid ==> id.birth != birth
    ensures History(observed, pid) == [] <==> forall id :: id in observed ==> id.pid != pid
  {
    if observed != [] {
      SameBirthEmpty(observed[1..], pid, birth);
      var rest := History(observed[1..], pid);
      assert observed == [observed[0]] + observed[1..];
      assert ([observed[0]] + rest)[1..] == rest;
      assert [] + rest == rest;
    }
  }

  /** Absent, a zombie, or proved to be a different process from all recorded for the pid. */
  ghost predicate NotOurs(obs: Option<Observation>, observed: seq<Identity>, pid: int) {
    || obs.None? || obs.value.state == Zombie
    || (&& obs.value.state == Running
        && (exists id :: id in observed && id.pid == pid)
        && (forall id :: id in observed && id.pid == pid ==> id.birth != obs.value.birth))
  }

  /** A tracked non-target passes exactly when it is read absent, zombie, or with a birth that
      differs from all the births recorded for it (and some birth is recorded). */
  lemma HistoryPasses(ctx: Context, pid: int, obs: Option<Observation>)
    ensures JudgeHistory(ctx, pid, obs) == Pass <==> NotOurs(obs, ctx.observed, pid)
  {
    if obs.Some? { SameBirthEmpty(ctx.observed, pid, obs.value.birth); }
  }

  /** The group in which the history expects the process that was read. */
  function ExpectedGroup(ctx: Context, pid: int, obs: Option<Observation>): int
    requires obs.Some?
  {
    var expected := Expected(History(ctx.observed, pid), obs);
    var groups := GroupsOf(ctx.pidGroups, pid);
    if expected.Some? then expected.value.pgid
    else if obs.value.state != Unreadable && groups != {} then Minimum(groups)
    else obs.value.pgid
  }

  /** The record of a tracked non-target cannot be built exactly when it may still be ours and the
      read, or the group expected for it, does not fit a record. */
  lemma HistoryRejected(ctx: Context, pid: int, obs: Option<Observation>)
    ensures JudgeHistory(ctx, pid, obs) == Reject <==>
      !NotOurs(obs, ctx.observed, pid) && Unfit(pid, ExpectedGroup(ctx, pid, obs), obs)
  {
    HistoryPasses(ctx, pid, obs);
    if !NotOurs(obs, ctx.observed, pid) {
      var expected := Expected(History(ctx.observed, pid), obs);
      var birth := if expected.Some? then Some(expected.value.birth) else None;
      var group := ExpectedGroup(ctx, pid, obs);
      if obs.value.state == Unreadable {
        UnreadableFails(pid, group, obs, FromHistory, AdmissionClosed, birth);
      } else if expected.Some? && obs.value.pgid != group {
        MovedFails(pid, group, obs, FromHistory, AdmissionClosed, birth);
      } else {
        PlainFails(pid, group, obs, FromHistory, AdmissionClosed, birth);
      }
    }
  }

  /** It happens: a tracked pid of which nothing was recorded is read as a kernel thread, in group 0. */
  lemma HistoryCanBeRejected()
    ensures JudgeHistory(Context(map[], [], {}), 5, Some(Observation(5, 0, "birth", Running, Some(2), Untagged)))
      == Reject
  {
    HistoryRejected(Context(map[], [], {}), 5, Some(Observation(5, 0, "birth", Running, Some(2), Untagged)));
  }

  /** What a read must be for its record not to be built, in terms of the read alone. */
  ghost predicate Unrecordable(ctx: Context, e: Event) {
    match e
    case Read(GroupScan(_, pgid), pid, obs) =>
      || CapturedElsewhere(ctx.ids, pgid, pid, obs)
      || (!CapturedUnchanged(ctx.ids, pgid, pid, obs) && Unfit(pid, pgid, obs))
    case Read(TargetVerdict, pid, _) => pid in ctx.ids && (ctx.ids[pid].pid <= 0 || ctx.ids[pid].pgid <= 0)
    case Read(HistoryCheck, pid, obs) =>
      !NotOurs(obs, ctx.observed, pid) && Unfit(pid, ExpectedGroup(ctx, pid, obs), obs)
    case _ => false
  }

  lemma RejectIsUnrecordable(ctx: Context, e: Event)
    ensures Judge(ctx, e) == Reject <==> Unrecordable(ctx, e)
  {
    match e
    case Read(GroupScan(source, pgid), pid, obs) => MemberRejected(ctx.ids, source, pgid, pid, obs);
    case Read(TargetVerdict, pid, obs) => if pid in ctx.ids { TargetMeansRead(ctx.ids[pid], obs); }
    case Read(HistoryCheck, pid, obs) => HistoryRejected(ctx, pid, obs);
    case _ =>
  }

  /** Some read of the segment cannot be recorded. */
  ghost predicate AnyUnrecordable(ctx: Context, seg: seq<Event>) { exists e :: e in seg && Unrecordable(ctx, e) }

  /** The fold is rejected exactly when some read in it cannot be recorded. */
  lemma {:induction false} RejectedIff(ctx: Context, seg: seq<Event>)
    ensures Scan(ctx, NOTHING, seg).rejected <==> AnyUnrecordable(ctx, seg)
  {
    if seg != [] {
      var front, e := seg[..|seg| - 1], seg[|seg| - 1];
      RejectedIff(ctx, front);
      RejectIsUnrecordable(ctx, e);
      assert seg == front + [e];
      assert forall x :: x in seg <==> x in front || x == e;
    }
  }
}
