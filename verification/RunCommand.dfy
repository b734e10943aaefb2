/**
 The end of a watched command: everything after the freeze, from the last tree scan to the result
 handed to the caller. A normal return is the strongest claim the runner makes.
 */
module RunCommand {
  import opened Base
  import opened Processes
  import opened ProcessTree
  import opened OperatingSystem
  import opened Merging
  import opened Judging
  import opened Signalling
  import opened Cleanup
  import opened CapturePasses
  import opened Admission
  import opened Publication
  import opened Provenance
  import opened LockSections
  import opened Receipts

  /** The tracked numbers that cleanup starts from. */
  datatype Scopes = Scopes(pids: set<int>, pgids: set<int>, coverage: Coverage, why: Option<Diagnostic>)

  /** The numbers are those of the copy, of the last scan and of the root; coverage stays complete
      exactly if it was and the last table was read completely, and the first diagnostic stays. */
  ghost predicate LastScan(copy: Copy, r: Scopes, table: seq<Event>, rootPid: Option<int>, rootPgid: Option<int>) {
    && (forall pid :: pid in r.pids <==> pid in copy.pids || InScan(table, None, rootPgid, pid) || rootPid == Some(pid))
    && (forall g :: g in r.pgids <==> g in copy.pgids || GroupInScan(table, None, rootPgid, g) || rootPgid == Some(g))
    && (r.coverage == CoverageComplete <==> copy.coverage == CoverageComplete && Scanned(table))
    && r.why == (if copy.why.Some? then copy.why
                 else if !Scanned(table) then Some(Diagnostic(FinalSnapshot, SnapshotFailure)) else None)
  }

  /** The last tree scan: admission is closed, so it follows no parent links. */
  method FinalScopes(os: Os, copy: Copy, rootPid: Option<int>, rootPgid: Option<int>)
    returns (r: Scopes, ghost seg: seq<Event>)
    requires DiagnosticFits(copy.coverage, copy.why)
    modifies os
    ensures os.trace == old(os.trace) + seg && NoSignals(seg) && forall e :: e in seg ==> !e.Read?
    ensures LastScan(copy, r, seg, rootPid, rootPgid)
  {
    var answer := os.ReadIdentityTable();
    seg := [if answer.Some? then IdentityTable(answer.value.0, answer.value.1) else TableFailed];
    var pids, pgids, complete := {}, {}, false;
    ghost var scan := None;
    if answer.Some? {
      var t := SnapshotTree(answer.value.0, answer.value.1, None, rootPgid);
      pids, pgids, complete := t.pids, t.pgids, t.coverage == CoverageComplete;
      scan := Some(t);
    }
    ScanNumbers(seg, None, rootPgid, scan);
    var coverage, why := copy.coverage, copy.why;
    if !complete {
      coverage := CoverageUnknown;
      if why.None? { why := Some(Diagnostic(FinalSnapshot, SnapshotFailure)); }
    }
    r := Scopes(copy.pids + pids + (if rootPid.Some? then {rootPid.value} else {}),
                copy.pgids + pgids + (if rootPgid.Some? then {rootPgid.value} else {}), coverage, why);
  }

  /** The fallback when cleanup raised: nothing is known about the targets. */
  function Unobserved(copy: Copy): Snapshot {
    Snapshot([], CoverageUnknown, Some(TARGET_UNKNOWN), 0, copy.drain, true, copy.offences)
  }

  /** What one cleanup of the frozen copy left behind, for the claims about a normal return. */
  ghost predicate LeftNothing(copy: Copy, observed: seq<Identity>, r: Scopes, cleanup: seq<Event>) {
    && copy.pids <= r.pids && copy.pgids <= r.pgids && r.coverage == CoverageComplete
    && (forall id :: id in observed <==> id in copy.observed.Values)
    && NothingLeft(cleanup, copy.identities, observed, r.pids, r.pgids)
  }

  ghost predicate TerminalFits(terminal: Snapshot, copy: Copy) {
    && SoundSnapshot(terminal) && SoundTargets(terminal.targets) && terminal.drain == copy.drain
    && (Unsettled(copy) ==> CleanupStatus(terminal) == Unknown)
  }

  ghost function FrozenContext(copy: Copy, observed: seq<Identity>): Context {
    ContextOf(copy.identities, observed, copy.pidGroups)
  }

  /** The terminal snapshot is what the cleanup found over the final scopes, with the frozen
      observations before its own and the drain status of the freeze. */
  ghost predicate FrozenFaithful(terminal: Snapshot, copy: Copy, r: Scopes, observed: seq<Identity>, seg: seq<Event>) {
    var f := Scan(FrozenContext(copy, observed), Prior(copy.identities, r.why, []), seg);
    && terminal.why == f.why && terminal.offences == Merge(copy.offences + f.offences)
    && terminal.signalled == |SignalledPids(seg)| && terminal.drain == copy.drain
    && TargetsObserved(terminal.targets, seg, ByPid(copy.identities))
  }

  /** `interrupted` says whether the cleanup was broken off by an error of the operating system. */
  method CleanFrozen(os: Os, copy: Copy, r: Scopes, interrupted: bool)
    returns (terminal: Snapshot, ghost observed: seq<Identity>, ghost seg: seq<Event>)
    requires ScopesFit(copy, r)
    modifies os
    ensures os.trace == old(os.trace) + seg
    ensures SignalsJustified(seg, ByPid(copy.identities))
    ensures TerminalFits(terminal, copy)
    ensures terminal.targetUnknown <==> interrupted || AnyUnrecordable(FrozenContext(copy, observed), seg)
    ensures if terminal.targetUnknown then terminal == Unobserved(copy)
      else Pursued(seg, ByPid(copy.identities)) && FrozenFaithful(terminal, copy, r, observed, seg)
    ensures CleanupStatus(terminal) == Complete ==>
      LeftNothing(copy, observed, r, seg) && |terminal.targets| == |copy.identities|
  {
    var history := Values(copy.observed);
    observed := history;
    var result, cleanup :=
      CleanupBirthBound(os, copy.identities, r.pids, r.pgids, copy.pidGroups, history, r.coverage, r.why, []);
    seg := cleanup;
    if result.None? || interrupted {
      UnobservedFits(copy);
      terminal := Unobserved(copy);
      return;
    }
    var s := result.value;
    var merged := MergeObservations(copy.offences + s.offences);
    terminal := s.(drain := copy.drain, offences := merged);
    CleanedTerminal(s, copy, r, history, cleanup, terminal);
    FrozenIsFaithful(s, copy, r, history, cleanup, terminal);
    if CleanupStatus(terminal) == Complete { CleanedLeavesNothing(s, copy, r, history, cleanup, terminal); }
  }

  lemma UnobservedFits(copy: Copy)
    requires SoundCopy(copy)
    ensures TerminalFits(Unobserved(copy), copy) && CleanupStatus(Unobserved(copy)) == Unknown
  {}

  /** A cleanup of the frozen copy over the final scopes, with the frozen observations added. */
  ghost predicate CleanedOver(s: Snapshot, copy: Copy, r: Scopes, history: seq<Identity>, cleanup: seq<Event>,
                              terminal: Snapshot)
  {
    && ScopesFit(copy, r) && (forall id :: id in history <==> id in copy.observed.Values)
    && Concluded(Some(s), ContextOf(copy.identities, history, copy.pidGroups), Prior(copy.identities, r.why, []),
                 cleanup, r.pids, r.pgids)
    && terminal == s.(drain := copy.drain, offences := Merge(copy.offences + s.offences))
  }

  ghost predicate ScopesFit(copy: Copy, r: Scopes) {
    && SoundCopy(copy) && DiagnosticFits(r.coverage, r.why)
    && (r.why == copy.why || (copy.why.None? && r.why == Some(Diagnostic(FinalSnapshot, SnapshotFailure))))
    && copy.pids <= r.pids && copy.pgids <= r.pgids
  }

  lemma CleanedTerminal(s: Snapshot, copy: Copy, r: Scopes, history: seq<Identity>, cleanup: seq<Event>,
                        terminal: Snapshot)
    requires CleanedOver(s, copy, r, history, cleanup, terminal)
    ensures TerminalFits(terminal, copy)
  {
    var ctx := ContextOf(copy.identities, history, copy.pidGroups);
    WithEarlierIsSound(s, copy.identities, r.coverage, r.why, copy.offences, ctx, cleanup, terminal);
    ByPidFacts(copy.identities);
    ScanFrom(ctx, Prior(copy.identities, r.why, []), cleanup);
    ObservedTargetsAreSound(s.targets, cleanup, ctx.ids);
  }

  lemma FrozenIsFaithful(s: Snapshot, copy: Copy, r: Scopes, history: seq<Identity>, cleanup: seq<Event>,
                         terminal: Snapshot)
    requires CleanedOver(s, copy, r, history, cleanup, terminal)
    ensures FrozenFaithful(terminal, copy, r, history, cleanup) && Pursued(cleanup, ByPid(copy.identities))
    ensures !terminal.targetUnknown && !AnyUnrecordable(FrozenContext(copy, history), cleanup)
  {
    MergeFlattens(copy.offences,
                  Scan(FrozenContext(copy, history), Prior(copy.identities, r.why, []), cleanup).offences);
  }

  lemma CleanedLeavesNothing(s: Snapshot, copy: Copy, r: Scopes, history: seq<Identity>, cleanup: seq<Event>,
                             terminal: Snapshot)
    requires CleanedOver(s, copy, r, history, cleanup, terminal) && CleanupStatus(terminal) == Complete
    ensures LeftNothing(copy, history, r, cleanup) && |terminal.targets| == |copy.identities|
  {
    CompleteIsSound(s, copy.identities, history, copy.pidGroups, r.pids, r.pgids, r.coverage, r.why, [], cleanup);
  }

  /** Waiting for the child failed: the state of the targets is unknown. */
  function WaitFailed(s: Snapshot): Snapshot {
    s.(coverage := CoverageUnknown, why := Or(s.why, Some(TARGET_UNKNOWN)), targetUnknown := true)
  }

  lemma WaitFailedIsSound(s: Snapshot)
    requires SoundSnapshot(s)
    ensures SoundSnapshot(WaitFailed(s)) && CleanupStatus(WaitFailed(s)) == Unknown
  {}

  /** The child is polled, and once more with patience if it is still running. */
  predicate Waited(polls: seq<Event>) {
    && 1 <= |polls| <= 2 && (forall e :: e in polls ==> e.Polled?)
    && (|polls| == 2 <==> polls[0] == Polled(StillRunning))
  }

  /** The exit code that the last poll gave, if it gave one. */
  function LastExit(polls: seq<Event>): Option<int> {
    if polls != [] && polls[|polls| - 1].Polled? && polls[|polls| - 1].answer.Exited?
    then Some(polls[|polls| - 1].answer.code) else None
  }

  method Reap(os: Os) returns (code: Option<int>, ghost seg: seq<Event>)
    modifies os
    ensures os.trace == old(os.trace) + seg && Waited(seg) && code == LastExit(seg)
  {
    var answer := os.Poll();
    seg := [Polled(answer)];
    if answer == StillRunning {
      answer := os.Poll();
      seg := seg + [Polled(answer)];
    }
    code := if answer.Exited? then Some(answer.code) else None;
  }

  datatype Outcome = Returned | Failure | Raised

  /** The pass delivered a scope in this run, and all of it is in the copy. */
  ghost predicate CopiedFor(steps: seq<Step>, copy: Copy, pass: Pass) {
    exists scope :: Deliver(pass, scope) in steps && CopyHolds(copy, scope)
  }

  lemma PublishedIsCopied(steps: seq<Step>, s: Pub, copy: Copy)
    requires Continues(START, steps, s) && s.phase == Frozen && s.copy == Some(copy)
    ensures forall pass :: pass in s.passes.published ==> CopiedFor(steps, copy, pass)
  {
    PublishedWasDelivered(steps, s);
    forall pass | pass in s.passes.published ensures CopiedFor(steps, copy, pass) {
      var scope :| Deliver(pass, scope) in steps && Holds(s, scope);
    }
  }

  /** The claims attached to a normal return: a clean exit, every started pass published before the
      freeze and all it delivered in the copy, and nothing tracked left when it was last looked at. */
  ghost predicate NormalReturn(steps: seq<Step>, s: Pub, copy: Copy, observed: seq<Identity>, r: Scopes,
                               terminal: Snapshot, exitCode: int,
                               table: seq<Event>, cleanup: seq<Event>, polls: seq<Event>)
  {
    && exitCode == 0 && LastExit(polls) == Some(0)
    && AllPublished(s.passes) && (forall pass :: pass in s.passes.started ==> CopiedFor(steps, copy, pass))
    && CleanupStatus(terminal) == Complete && Cleared(copy, observed, r, terminal, table, cleanup, polls)
  }

  function Decide(status: Status, evidence: Option<Evidence>, hasPath: bool, stopped: bool): Outcome {
    if evidence.None? then Raised
    else if stopped || status != Complete
         || (hasPath && evidence.value.kind !in {Authenticated, NoTargetObserved}) then Failure
    else Returned
  }

  /** A complete status leaves no pass unpublished: an unsettled watcher makes the drain, and with
      it the verdict, unknown. */
  lemma CompleteMeansPublished(s: Pub, copy: Copy, terminal: Snapshot)
    requires Reachable(s) && s.phase == Frozen && s.copy == Some(copy) && !s.aborted
    requires terminal.drain == copy.drain && CleanupStatus(terminal) == Complete
    ensures AllPublished(s.passes)
  {
    ReachableInv(s);
  }

  /** Waiting for the child once its tree was cleaned up; a failed wait makes the state unknown. */
  method Settled(os: Os, launched: bool, copy: Copy, before: Snapshot)
    returns (terminal: Snapshot, code: Option<int>, ghost polls: seq<Event>)
    requires TerminalFits(before, copy)
    modifies os
    ensures os.trace == old(os.trace) + polls && code == LastExit(polls)
    ensures if launched then Waited(polls) else polls == []
    ensures TerminalFits(terminal, copy)
    ensures terminal == if launched && code.None? then WaitFailed(before) else before
  {
    polls, terminal, code := [], before, None;
    if !launched { return; }
    code, polls := Reap(os);
    if code.None? {
      FailedWaitIsUnknown(before, copy);
      terminal := WaitFailed(before);
    }
  }

  /** The evidence of a finished command; without a root there is nothing to tell. */
  function FinalEvidence(terminal: Snapshot, rooted: bool, hasPath: bool, written: bool): Option<Evidence> {
    if !rooted then Some(Evidence(NoTargetObserved, false, None, None)) else CommandEvidence(terminal, hasPath, written)
  }

  /** Whatever is signalled is a target of the copy and was admitted in the trace of a pass published
      before the freeze. */
  ghost predicate SignalsAdmitted(seg: seq<Event>, copy: Copy, steps: seq<Step>, published: set<Pass>,
                                  captures: Captures, root: Option<Identity>)
  {
    forall e :: e in seg && e.Signalled? ==> TargetAdmitted(e.pid, copy, steps, published, captures, root)
  }

  ghost predicate TargetAdmitted(pid: int, copy: Copy, steps: seq<Step>, published: set<Pass>,
                                 captures: Captures, root: Option<Identity>)
  {
    exists id :: id in copy.identities && id.pid == pid && AdmittedIn(steps, published, captures, root, KeyOf(id))
  }

  lemma JustifiedAreAdmitted(seg: seq<Event>, copy: Copy, steps: seq<Step>, s: Pub, captures: Captures,
                             root: Option<Identity>)
    requires SignalsJustified(seg, ByPid(copy.identities))
    requires Continues(START, steps, s) && s.phase == Frozen && s.copy == Some(copy)
      && FromCaptures(steps, captures, root)
    ensures SignalsAdmitted(seg, copy, steps, s.passes.published, captures, root)
  {
    SignalledAreCaptured(seg, copy.identities);
    forall e | e in seg && e.Signalled? ensures TargetAdmitted(e.pid, copy, steps, s.passes.published, captures, root) {
      FrozenTargetsAdmitted(steps, s, copy, captures, root, ByPid(copy.identities)[e.pid]);
    }
  }

  lemma FailedWaitIsUnknown(before: Snapshot, copy: Copy)
    requires TerminalFits(before, copy)
    ensures TerminalFits(WaitFailed(before), copy) && CleanupStatus(WaitFailed(before)) == Unknown
  {
    WaitFailedIsSound(before);
  }

  /** A command returns normally exactly when nothing stopped it, its child exited with zero, its state is
      complete and the receipt that was asked for is there. */
  predicate ReturnsNormally(terminal: Snapshot, exitCode: int, stopped: bool, hasPath: bool, written: bool) {
    !stopped && exitCode == 0 && CleanupStatus(terminal) == Complete && (hasPath && terminal.targets != [] ==> written)
  }

  lemma LastScanFits(copy: Copy, r: Scopes, table: seq<Event>, rootPid: Option<int>, rootPgid: Option<int>)
    requires SoundCopy(copy) && LastScan(copy, r, table, rootPid, rootPgid)
    ensures ScopesFit(copy, r)
  {
    assert forall pid :: pid in copy.pids ==> pid in r.pids;
    assert forall g :: g in copy.pgids ==> g in r.pgids;
  }

  /** What the end of a command did: the last scan, the cleanup over it, the wait for the child. */
  ghost predicate WoundUp(copy: Copy, rootPid: Option<int>, rootPgid: Option<int>, interrupted: bool, r: Scopes,
                          terminal: Snapshot, observed: seq<Identity>,
                          table: seq<Event>, cleanup: seq<Event>, polls: seq<Event>)
  {
    && TerminalFits(terminal, copy) && LastScan(copy, r, table, rootPid, rootPgid)
    && SignalsJustified(table + cleanup + polls, ByPid(copy.identities))
    && (if rootPid.Some? then Waited(polls) else polls == [])
    && (terminal.targetUnknown <==>
          || interrupted || AnyUnrecordable(FrozenContext(copy, observed), cleanup)
          || (rootPid.Some? && LastExit(polls).None?))
    && (terminal.targetUnknown ||
          (Pursued(cleanup, ByPid(copy.identities)) && FrozenFaithful(terminal, copy, r, observed, cleanup)))
  }

  /** What a complete end leaves: nothing tracked, and no later read of a tracked process. */
  ghost predicate Cleared(copy: Copy, observed: seq<Identity>, r: Scopes, terminal: Snapshot,
                          table: seq<Event>, cleanup: seq<Event>, polls: seq<Event>)
  {
    && Scanned(table) && LeftNothing(copy, observed, r, cleanup) && |terminal.targets| == |copy.identities|
    && (forall pid :: LastRead(table + cleanup + polls, pid) == LastRead(cleanup, pid))
  }

  method WindUp(os: Os, copy: Copy, rootPid: Option<int>, rootPgid: Option<int>, interrupted: bool)
    returns (r: Scopes, terminal: Snapshot, code: Option<int>, ghost observed: seq<Identity>,
             ghost table: seq<Event>, ghost cleanup: seq<Event>, ghost polls: seq<Event>)
    requires SoundCopy(copy)
    modifies os
    ensures os.trace == old(os.trace) + (table + cleanup + polls) && code == LastExit(polls)
    ensures WoundUp(copy, rootPid, rootPgid, interrupted, r, terminal, observed, table, cleanup, polls)
    ensures CleanupStatus(terminal) == Complete ==> Cleared(copy, observed, r, terminal, table, cleanup, polls)
  {
    r, table := FinalScopes(os, copy, rootPid, rootPgid);
    LastScanFits(copy, r, table, rootPid, rootPgid);
    var before;
    before, observed, cleanup := CleanFrozen(os, copy, r, interrupted);
    terminal, code, polls := Settled(os, rootPid.Some?, copy, before);
    TraceConcat(old(os.trace), table, cleanup, polls);
    PollsOnly(table, cleanup, polls, ByPid(copy.identities));
    FailedWaitIsUnknown(before, copy);
  }

  /** Everything after the freeze of the command `c`. `timedOut` says whether the child was still alive
      at the deadline, `aborted` whether starting or watching it raised and `escaping` whether what it
      raised is not an error of the operating system, `written` whether the receipt file can be written
      and `outputRead` whether the output spools can be read; `interrupted` says whether the cleanup was
      broken off by an error of the operating system. */
  method FinishCommand(os: Os, c: WatchedCommand, copy: Copy, aborted: bool, escaping: bool, timedOut: bool,
                       rootPid: Option<int>, rootPgid: Option<int>, hasPath: bool, written: bool, outputRead: bool,
                       interrupted: bool)
    returns (outcome: Outcome, exitCode: int, terminal: Snapshot, evidence: Option<Evidence>,
             r: Scopes, ghost observed: seq<Identity>,
             ghost table: seq<Event>, ghost cleanup: seq<Event>, ghost polls: seq<Event>)
    requires c.Valid() && c.state == Frozen && c.copy == Some(copy) && aborted == c.aborted
    requires rootPid.None? || rootPgid.None? || escaping ==> aborted
    modifies os
    ensures os.trace == old(os.trace) + (table + cleanup + polls)
    ensures WoundUp(copy, rootPid, rootPgid, interrupted, r, terminal, observed, table, cleanup, polls)
    ensures SignalsAdmitted(table + cleanup + polls, copy, c.history, c.passes.published, c.captures, c.root)
    ensures exitCode == ExitCode(timedOut || aborted || !outputRead, LastExit(polls))
    ensures evidence == if escaping then None
      else FinalEvidence(terminal, rootPid.Some? && rootPgid.Some?, hasPath, written)
    ensures outcome == Returned <==>
      !escaping && ReturnsNormally(terminal, exitCode, timedOut || aborted || !outputRead, hasPath, written)
    ensures outcome == Returned ==>
      NormalReturn(c.history, c.View(), copy, observed, r, terminal, exitCode, table, cleanup, polls)
    ensures outcome == Raised <==> escaping || evidence.None?
    ensures outcome == Raised && !escaping ==> CleanupStatus(terminal) == Unknown && hasPath && written
  {
    ghost var steps, s := c.history, c.View();
    RecordedIsRun(c.states, steps, c.captures, c.root, s);
    CopySound(s, copy);
    var code;
    r, terminal, code, observed, table, cleanup, polls := WindUp(os, copy, rootPid, rootPgid, interrupted);
    JustifiedAreAdmitted(table + cleanup + polls, copy, steps, s, c.captures, c.root);
    var stopped := timedOut || aborted || !outputRead;
    exitCode := ExitCode(stopped, code);
    evidence := if escaping then None else FinalEvidence(terminal, rootPid.Some? && rootPgid.Some?, hasPath, written);
    outcome := if escaping then Raised
      else Decide(CleanupStatus(terminal), evidence, hasPath, stopped || exitCode != 0);
    OutcomeFits(terminal, copy, rootPid.Some? && rootPgid.Some?, hasPath, written, stopped, exitCode);
    if outcome == Returned {
      ReturnIsNormal(steps, s, copy, observed, r, terminal, table, cleanup, polls);
    }
  }

  function ExitCode(stopped: bool, code: Option<int>): int { if stopped || code.None? then 124 else code.value }

  lemma OutcomeFits(terminal: Snapshot, copy: Copy, rooted: bool, hasPath: bool, written: bool, stopped: bool,
                    exitCode: int)
    requires TerminalFits(terminal, copy) && (!rooted ==> stopped)
    ensures var evidence := FinalEvidence(terminal, rooted, hasPath, written);
      var outcome := Decide(CleanupStatus(terminal), evidence, hasPath, stopped || exitCode != 0);
      && (outcome == Returned <==> ReturnsNormally(terminal, exitCode, stopped, hasPath, written))
      && (outcome == Raised <==> evidence.None?)
      && (outcome == Raised ==> CleanupStatus(terminal) == Unknown && hasPath && written)
  {
    CommandEvidenceIsHonest(terminal, hasPath, written);
  }

  lemma ReturnIsNormal(steps: seq<Step>, s: Pub, copy: Copy, observed: seq<Identity>, r: Scopes, terminal: Snapshot,
                       table: seq<Event>, cleanup: seq<Event>, polls: seq<Event>)
    requires Continues(START, steps, s) && s.phase == Frozen && s.copy == Some(copy) && !s.aborted
    requires terminal.drain == copy.drain && CleanupStatus(terminal) == Complete && LastExit(polls) == Some(0)
    requires Cleared(copy, observed, r, terminal, table, cleanup, polls)
    ensures NormalReturn(steps, s, copy, observed, r, terminal, 0, table, cleanup, polls)
  {
    CompleteMeansPublished(s, copy, terminal);
    PublishedIsCopied(steps, s, copy);
  }

  lemma CopySound(s: Pub, copy: Copy)
    requires Reachable(s) && s.phase == Frozen && s.copy == Some(copy)
    ensures SoundCopy(copy)
  {
    ReachableInv(s);
  }

  lemma PollsOnly(table: seq<Event>, cleanup: seq<Event>, polls: seq<Event>, ids: map<int, Identity>)
    requires forall e :: e in polls ==> e.Polled?
    requires SignalsJustified(cleanup, ids) && NoSignals(table) && forall e :: e in table ==> !e.Read?
    ensures SignalsJustified(table + cleanup + polls, ids)
    ensures forall pid :: LastRead(table + cleanup + polls, pid) == LastRead(cleanup, pid)
  {
    assert SignalsJustified(table, ids) by { assert forall i :: 0 <= i < |table| ==> table[i] in table; }
    JustifiedConcat(table, cleanup, ids);
    assert SignalsJustified(polls, ids) by { assert forall i :: 0 <= i < |polls| ==> polls[i] in polls; }
    JustifiedConcat(table + cleanup, polls, ids);
    forall pid ensures LastRead(table + cleanup + polls, pid) == LastRead(cleanup, pid) {
      LastReadConcat(table + cleanup, polls, pid);
      LastReadConcat(table, cleanup, pid);
      LastReadIsEvent(polls, pid);
      LastReadIsEvent(table, pid);
    }
  }

  /** Whatever happened, the receipt of a finished command passes its own validator: the diagnostic
      one when the state is unknown, else the authenticated one with the snapshot's own counts. */
  lemma CommandReceiptIsValid(command: string, rootPid: int, rootPgid: int, terminal: Snapshot, copy: Copy)
    requires rootPid > 0 && rootPgid > 0 && TerminalFits(terminal, copy)
    ensures CleanupStatus(terminal) == Unknown ==>
      ValidUnknownReceipt(UnknownReceiptOf(command, rootPid, rootPgid, terminal))
    ensures CleanupStatus(terminal) != Unknown && terminal.targets != [] ==>
      && ValidIdentityReceipt(IdentityReceiptOf(command, rootPid, rootPgid, terminal))
      && ReceiptStatus(IdentityReceiptOf(command, rootPid, rootPgid, terminal)) == CleanupStatus(terminal)
  {
    if CleanupStatus(terminal) == Unknown {
      UnknownReceiptIsValid(command, rootPid, rootPgid, terminal);
    } else if terminal.targets != [] {
      IdentityReceiptIsValid(command, rootPid, rootPgid, terminal);
    }
  }
}
