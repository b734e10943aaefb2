/**
 Birth-bound cleanup of one captured scope: scan the tracked groups, signal only processes whose
 birth was just re-read, rescan, observe every target and every other tracked pid.
 */
module Cleanup {
  import opened Base
  import opened Processes
  import opened OperatingSystem
  import opened Merging
  import opened Judging
  import opened GroupScans
  import opened Signalling

  datatype Drain = NotApplicable | Drained | Discarded | StillRunningWatcher | DrainUnknown

  datatype Snapshot = Snapshot(
    targets: seq<Target>, coverage: Coverage, why: Option<Diagnostic>, signalled: nat,
    drain: Drain, targetUnknown: bool, offences: seq<Offence>)

  /** The checks a terminal snapshot runs on itself when it is built. */
  predicate SnapshotAccepted(s: Snapshot) {
    DiagnosticFits(s.coverage, s.why) && (s.offences != [] ==> s.coverage == CoverageUnknown)
  }

  datatype Status = Complete | Failed | Unknown

  predicate AnyOutcome(targets: seq<Target>, o: Outcome) { exists t :: t in targets && t.outcome == o }

  function CleanupStatus(s: Snapshot): Status {
    if s.drain in {Discarded, StillRunningWatcher, DrainUnknown} then Unknown
    else if s.targetUnknown || s.coverage == CoverageUnknown || AnyOutcome(s.targets, OutcomeUnknown) then Unknown
    else if AnyOutcome(s.targets, StillAlive) then Failed
    else Complete
  }

  // ---- captured identities by pid ----

  /** When a pid is captured twice the later identity wins. */
  function ByPid(identities: seq<Identity>): map<int, Identity> {
    if identities == [] then map[] else
      var last := identities[|identities| - 1];
      ByPid(identities[..|identities| - 1])[last.pid := last]
  }

  lemma {:induction false} ByPidFacts(identities: seq<Identity>)
    ensures forall pid :: pid in ByPid(identities) ==>
      ByPid(identities)[pid] in identities && ByPid(identities)[pid].pid == pid
    ensures forall id :: id in identities ==> id.pid in ByPid(identities)
    ensures |ByPid(identities)| <= |identities|
    ensures |ByPid(identities)| == |identities| <==> DistinctPids(identities)
  {
    if identities != [] {
      var front, last := identities[..|identities| - 1], identities[|identities| - 1];
      assert identities == front + [last];
      ByPidFacts(front);
      if last.pid in ByPid(front) {
        var same := ByPid(front)[last.pid];
        var i :| 0 <= i < |front| && front[i] == same;
        assert identities[i].pid == identities[|front|].pid;
        assert ByPid(identities).Keys == ByPid(front).Keys;
      } else {
        assert ByPid(identities).Keys == ByPid(front).Keys + {last.pid};
        forall i | 0 <= i < |front| ensures identities[i].pid != last.pid { assert front[i] in front; }
        assert DistinctPids(front) <==> DistinctPids(identities);
      }
    }
  }

  /** The captured pids in the order of their first capture. */
  function PidsInOrder(identities: seq<Identity>): seq<int> {
    if identities == [] then []
    else
      var front, pid := PidsInOrder(identities[..|identities| - 1]), identities[|identities| - 1].pid;
      if pid in front then front else front + [pid]
  }

  method IndexByPid(identities: seq<Identity>) returns (order: seq<int>, ids: map<int, Identity>)
    ensures ids == ByPid(identities)
    ensures order == PidsInOrder(identities)
    ensures NoRepeats(order) && forall pid :: pid in order <==> pid in ids
  {
    order, ids := [], map[];
    for n := 0 to |identities|
      invariant ids == ByPid(identities[..n])
      invariant order == PidsInOrder(identities[..n])
      invariant NoRepeats(order) && forall pid :: pid in order <==> pid in ids
    {
      assert identities[..n + 1][..n] == identities[..n];
      var id := identities[n];
      if id.pid !in ids { order := order + [id.pid]; }
      ids := ids[id.pid := id];
    }
    assert identities[..|identities|] == identities;
  }

  /** Only captured pids are signalled. */
  lemma SignalledAreCaptured(seg: seq<Event>, identities: seq<Identity>)
    requires SignalsJustified(seg, ByPid(identities))
    ensures forall e :: e in seg && e.Signalled? ==>
      e.pid in ByPid(identities) && ByPid(identities)[e.pid] in identities && ByPid(identities)[e.pid].pid == e.pid
  {
    ByPidFacts(identities);
    forall e | e in seg && e.Signalled? ensures e.pid in ByPid(identities) {
      var i: nat :| i < |seg| && seg[i] == e;
      assert JustifiedAt(seg, i, ByPid(identities));
    }
  }

  // ---- terminal observation ----

  /** One target per captured identity, in pid order, each from the last read of its pid. */
  ghost predicate TargetsObserved(targets: seq<Target>, seg: seq<Event>, ids: map<int, Identity>) {
    ObservedSoFar(targets, seg, ids, Sorted(ids.Keys))
  }

  ghost predicate ObservedSoFar(targets: seq<Target>, seg: seq<Event>, ids: map<int, Identity>, pids: seq<int>) {
    && |targets| == |pids|
    && forall k :: 0 <= k < |pids| ==> pids[k] in ids && TargetFrom(targets[k], seg, ids[pids[k]], pids[k])
  }

  ghost predicate TargetFrom(t: Target, seg: seq<Event>, id: Identity, pid: int) {
    && LastReadAt(seg, pid, TargetVerdict)
    && t == ObserveTarget(id, LastRead(seg, pid).value.obs) && ValidTarget(t)
  }

  ghost predicate LastReadAt(seg: seq<Event>, pid: int, site: Site) {
    var e := LastRead(seg, pid);
    e.Some? && e.value.Read? && e.value.site == site
  }

  lemma ObservedSnoc(targets: seq<Target>, seg: seq<Event>, ids: map<int, Identity>, pids: seq<int>,
                     pid: int, obs: Option<Observation>)
    requires ObservedSoFar(targets, seg, ids, pids) && pid in ids && pid !in pids
    requires ValidTarget(ObserveTarget(ids[pid], obs))
    ensures ObservedSoFar(targets + [ObserveTarget(ids[pid], obs)], seg + [Read(TargetVerdict, pid, obs)], ids,
                          pids + [pid])
  {
    var e := Read(TargetVerdict, pid, obs);
    LastReadSnoc(seg, e, pid);
    forall k | 0 <= k < |pids| ensures TargetFrom(targets[k], seg + [e], ids[pids[k]], pids[k]) {
      assert TargetFrom(targets[k], seg, ids[pids[k]], pids[k]);
      assert pids[k] in pids;
      LastReadSnoc(seg, e, pids[k]);
    }
  }

  function UnknownTarget(targets: seq<Target>): Option<Diagnostic> {
    if AnyOutcome(targets, OutcomeUnknown) then Some(Diagnostic(TargetObservation, ObservationUnknown)) else None
  }

  lemma UnknownTargetSnoc(targets: seq<Target>, t: Target)
    ensures AnyOutcome(targets + [t], OutcomeUnknown) <==>
      AnyOutcome(targets, OutcomeUnknown) || t.outcome == OutcomeUnknown
  {
    assert t in targets + [t];
  }

  ghost predicate Observing(ctx: Context, targets: seq<Target>, seg: seq<Event>, pids: seq<int>) {
    && AtStage(seg, 4) && NoScans(seg)
    && ObservedSoFar(targets, seg, ctx.ids, pids)
    && Scan(ctx, NOTHING, seg) == Findings(UnknownTarget(targets), [], false)
  }

  lemma ObservingSnoc(ctx: Context, targets: seq<Target>, seg: seq<Event>, pids: seq<int>, pid: int,
                      obs: Option<Observation>)
    requires Observing(ctx, targets, seg, pids) && pid in ctx.ids && pid !in pids
    ensures var t := ObserveTarget(ctx.ids[pid], obs);
      var longer := seg + [Read(TargetVerdict, pid, obs)];
      && AtStage(longer, 4) && NoScans(longer)
      && (if ValidTarget(t) then Observing(ctx, targets + [t], longer, pids + [pid])
          else Scan(ctx, NOTHING, longer).rejected)
  {
    var e := Read(TargetVerdict, pid, obs);
    assert (seg + [e])[..|seg|] == seg;
    assert Judge(ctx, e) == JudgeTarget(ctx.ids[pid], obs);
    var t := ObserveTarget(ctx.ids[pid], obs);
    if ValidTarget(t) {
      ObservedSnoc(targets, seg, ctx.ids, pids, pid, obs);
      UnknownTargetSnoc(targets, t);
    }
  }

  method ObserveTargets(os: Os, ghost ctx: Context, ids: map<int, Identity>)
    returns (targets: Option<seq<Target>>, ghost seg: seq<Event>)
    requires ctx.ids == ids
    modifies os
    ensures os.trace == old(os.trace) + seg && AtStage(seg, 4) && NoScans(seg)
    ensures targets.None? <==> Scan(ctx, NOTHING, seg).rejected
    ensures targets.Some? ==> TargetsObserved(targets.value, seg, ids)
    ensures targets.Some? ==> Scan(ctx, NOTHING, seg) == Findings(UnknownTarget(targets.value), [], false)
  {
    seg := [];
    var made: seq<Target> := [];
    var order := Sorted(ids.Keys);
    for n := 0 to |order|
      invariant os.trace == old(os.trace) + seg
      invariant Observing(ctx, made, seg, order[..n])
    {
      var pid := order[n];
      IncreasingTake(order, n);
      assert pid in ids.Keys;
      var obs := os.ReadProcess(TargetVerdict, pid);
      ObservingSnoc(ctx, made, seg, order[..n], pid, obs);
      TraceJoin(old(os.trace), seg, [Read(TargetVerdict, pid, obs)]);
      seg := seg + [Read(TargetVerdict, pid, obs)];
      var target := ObserveTarget(ids[pid], obs);
      if !ValidTarget(target) {
        targets := None;
        return;
      }
      made := made + [target];
    }
    assert order[..|order|] == order;
    targets := Some(made);
  }

  ghost predicate HistoryReads(seg: seq<Event>, pids: set<int>) {
    AtStage(seg, 5) && forall e :: e in seg ==> e.Read? && e.site == HistoryCheck && e.pid in pids
  }

  /** The reads of the first tracked pids and what was found in them. */
  ghost predicate Recalling(ctx: Context, pids: set<int>, seg: seq<Event>, f: Findings, done: seq<int>) {
    && HistoryReads(seg, pids) && Scan(ctx, NOTHING, seg) == f && !f.rejected
    && forall pid :: pid in done ==> LastReadAt(seg, pid, HistoryCheck)
  }

  lemma RecallingSnoc(ctx: Context, pids: set<int>, seg: seq<Event>, f: Findings, done: seq<int>, pid: int,
                      obs: Option<Observation>)
    requires Recalling(ctx, pids, seg, f, done) && pid in pids
    ensures var longer := seg + [Read(HistoryCheck, pid, obs)];
      var g := Note(f, JudgeHistory(ctx, pid, obs));
      && HistoryReads(longer, pids) && Scan(ctx, NOTHING, longer) == g
      && (!g.rejected ==> Recalling(ctx, pids, longer, g, done + [pid]))
  {
    var e := Read(HistoryCheck, pid, obs);
    assert (seg + [e])[..|seg|] == seg && (seg + [e])[|seg|] == e;
    assert Judge(ctx, e) == JudgeHistory(ctx, pid, obs);
    forall p | p in done + [pid] ensures LastReadAt(seg + [e], p, HistoryCheck) { LastReadSnoc(seg, e, p); }
  }

  method ReadHistory(os: Os, ctx: Context, ghost pids: set<int>, pid: int, ghost f: Findings, ghost seg: seq<Event>,
                     ghost done: seq<int>)
    returns (verdict: Verdict, ghost read: Event)
    requires Recalling(ctx, pids, seg, f, done) && pid in pids
    modifies os
    ensures os.trace == old(os.trace) + [read]
    ensures var g := Note(f, verdict);
      && HistoryReads(seg + [read], pids) && Scan(ctx, NOTHING, seg + [read]) == g
      && (!g.rejected ==> Recalling(ctx, pids, seg + [read], g, done + [pid]))
  {
    var obs := os.ReadProcess(HistoryCheck, pid);
    read := Read(HistoryCheck, pid, obs);
    verdict := JudgeHistory(ctx, pid, obs);
    RecallingSnoc(ctx, pids, seg, f, done, pid, obs);
  }

  /** Every tracked pid that is not a target is read once more; nothing here can be signalled. */
  method CheckHistory(os: Os, ctx: Context, pids: set<int>)
    returns (found: Option<(Option<Diagnostic>, seq<Offence>)>, ghost seg: seq<Event>)
    modifies os
    ensures os.trace == old(os.trace) + seg && HistoryReads(seg, pids)
    ensures Scan(ctx, NOTHING, seg).rejected <==> found.None?
    ensures found.Some? ==> Scan(ctx, NOTHING, seg) == Findings(found.value.0, found.value.1, false)
    ensures found.Some? ==> forall pid :: pid in pids ==> LastReadAt(seg, pid, HistoryCheck)
  {
    seg := [];
    var why: Option<Diagnostic> := None;
    var offences: seq<Offence> := [];
    var order := Sorted(pids);
    for n := 0 to |order|
      invariant os.trace == old(os.trace) + seg
      invariant Recalling(ctx, pids, seg, Findings(why, offences, false), order[..n])
    {
      assert order[n] in order && order[..n + 1] == order[..n] + [order[n]];
      var verdict, read := ReadHistory(os, ctx, pids, order[n], Findings(why, offences, false), seg, order[..n]);
      TraceJoin(old(os.trace), seg, [read]);
      seg := seg + [read];
      if verdict.Reject? {
        found := None;
        return;
      }
      if verdict.Flag? {
        why := Or(why, Some(verdict.why));
        offences := offences + (if verdict.offence.Some? then [verdict.offence.value] else []);
      }
    }
    assert order[..|order|] == order;
    found := Some((why, offences));
  }

  // ---- the whole cleanup ----

  lemma SignalReadsAreQuiet(ctx: Context, seg: seq<Event>)
    requires OnlySignalReads(seg)
    ensures Scan(ctx, NOTHING, seg) == NOTHING
  {
    assert Quiet(ctx, seg);
    CleanIffQuiet(ctx, seg);
  }

  /** What is left after signalling: rescan, one terminal view per target, and the tracked rest. */
  ghost predicate Settled(targets: seq<Target>, seg: seq<Event>, ids: map<int, Identity>, groups: set<int>,
                          others: set<int>)
  {
    && (forall g :: g in groups ==> TableRead(seg, FromPostSignalRescan, g)) && ScansFinished(seg)
    && TargetsObserved(targets, seg, ids)
    && (forall pid :: pid in others ==> LastReadAt(seg, pid, HistoryCheck))
  }

  lemma SettledLater(targets: seq<Target>, before: seq<Event>, seg: seq<Event>, ids: map<int, Identity>,
                     groups: set<int>, others: set<int>)
    requires Settled(targets, seg, ids, groups, others) && ScansFinished(before)
    ensures Settled(targets, before + seg, ids, groups, others)
  {
    TableReadConcat(before, seg);
    ScansConcat(before, seg);
    forall pid | pid in others ensures LastReadAt(before + seg, pid, HistoryCheck) {
      LastReadConcat(before, seg, pid);
    }
    TargetsLater(targets, before, seg, [], ids);
    assert before + seg + [] == before + seg;
  }

  lemma TargetsLater(targets: seq<Target>, before: seq<Event>, seg: seq<Event>, later: seq<Event>,
                     ids: map<int, Identity>)
    requires TargetsObserved(targets, seg, ids)
    requires forall e :: e in later && e.Read? ==> e.pid !in ids
    ensures TargetsObserved(targets, before + seg + later, ids)
  {
    var order := Sorted(ids.Keys);
    forall k | 0 <= k < |order|
      ensures TargetFrom(targets[k], before + seg + later, ids[order[k]], order[k])
    {
      assert order[k] in order;
      assert TargetFrom(targets[k], seg, ids[order[k]], order[k]);
      LastReadConcat(before + seg, later, order[k]);
      LastReadConcat(before, seg, order[k]);
      LastReadIsEvent(later, order[k]);
    }
  }

  /** One terminal view per target, then every other tracked pid: no group is scanned here. */
  ghost predicate Looked(targets: seq<Target>, seg: seq<Event>, ids: map<int, Identity>, others: set<int>) {
    && NoScans(seg) && TargetsObserved(targets, seg, ids)
    && (forall pid :: pid in others ==> LastReadAt(seg, pid, HistoryCheck))
  }

  method LookAround(os: Os, ctx: Context, others: set<int>)
    returns (outcome: Option<(seq<Target>, Option<Diagnostic>, seq<Offence>)>, ghost seg: seq<Event>)
    requires others !! ctx.ids.Keys
    modifies os
    ensures os.trace == old(os.trace) + seg && Staged(seg, 4, 5)
    ensures outcome.None? <==> Scan(ctx, NOTHING, seg).rejected
    ensures outcome.Some? ==>
      && Scan(ctx, NOTHING, seg) == Findings(outcome.value.1, outcome.value.2, false)
      && Looked(outcome.value.0, seg, ctx.ids, others)
  {
    var targets, first := ObserveTargets(os, ctx, ctx.ids);
    seg, outcome := first, None;
    AtStageIsStaged(first, 4);
    if targets.None? { return; }
    var history, second := CheckHistory(os, ctx, others);
    AtStageIsStaged(second, 5);
    StagedConcat(first, second, 4, 4, 5, 5);
    TraceJoin(old(os.trace), first, second);
    ScanAppend(ctx, first, second);
    seg := first + second;
    if history.None? { return; }
    LookedTogether(targets.value, first, second, ctx.ids, others);
    assert [] + history.value.1 == history.value.1;
    outcome := Some((targets.value, Or(UnknownTarget(targets.value), history.value.0), history.value.1));
  }

  lemma LookedTogether(targets: seq<Target>, first: seq<Event>, second: seq<Event>, ids: map<int, Identity>,
                       others: set<int>)
    requires TargetsObserved(targets, first, ids) && NoScans(first)
    requires others !! ids.Keys && HistoryReads(second, others)
    requires forall pid :: pid in others ==> LastReadAt(second, pid, HistoryCheck)
    ensures Looked(targets, first + second, ids, others)
  {
    forall pid | pid in others ensures LastReadAt(first + second, pid, HistoryCheck) {
      LastReadConcat(first, second, pid);
    }
    TargetsLater(targets, [], first, second, ids);
    assert [] + first + second == first + second;
  }

  method Settle(os: Os, ctx: Context, groups: set<int>, others: set<int>)
    returns (outcome: Option<(seq<Target>, Option<Diagnostic>, seq<Offence>)>, ghost seg: seq<Event>)
    requires others !! ctx.ids.Keys
    modifies os
    ensures os.trace == old(os.trace) + seg && Staged(seg, 3, 5)
    ensures outcome.None? <==> Scan(ctx, NOTHING, seg).rejected
    ensures outcome.Some? ==>
      && Collected(outcome.value.1, outcome.value.2, Scan(ctx, NOTHING, seg))
      && Settled(outcome.value.0, seg, ctx.ids, groups, others)
  {
    var rescan, first := ScanTrackedGroups(os, ctx, FromPostSignalRescan, groups, ctx.ids);
    seg, outcome := first, None;
    AtStageIsStaged(first, 3);
    if rescan.None? { return; }
    var looked, second := LookAround(os, ctx, others);
    StagedConcat(first, second, 3, 3, 4, 5);
    TraceJoin(old(os.trace), first, second);
    ScanAppend(ctx, first, second);
    seg := first + second;
    if looked.None? { return; }
    SettledTogether(looked.value.0, first, second, ctx.ids, groups, others);
    MergeFlattens(Scan(ctx, NOTHING, first).offences, looked.value.2);
    outcome := Some((looked.value.0, Or(rescan.value.0, looked.value.1), rescan.value.1 + looked.value.2));
  }

  lemma SettledTogether(targets: seq<Target>, first: seq<Event>, second: seq<Event>,
                        ids: map<int, Identity>, groups: set<int>, others: set<int>)
    requires (forall g :: g in groups ==> TableRead(first, FromPostSignalRescan, g)) && ScansFinished(first)
    requires Looked(targets, second, ids, others)
    ensures Settled(targets, first + second, ids, groups, others)
  {
    TableReadConcat(first, second);
    NoScansFinished(second);
    ScansConcat(first, second);
    forall pid | pid in others ensures LastReadAt(first + second, pid, HistoryCheck) {
      LastReadConcat(first, second, pid);
    }
    TargetsLater(targets, first, second, [], ids);
    assert first + second + [] == first + second;
  }

  function ContextOf(identities: seq<Identity>, observed: seq<Identity>, pidGroups: set<(int, int)>): Context {
    Context(ByPid(identities), observed, pidGroups)
  }

  /** What the caller already knew, before the first read. */
  function Prior(identities: seq<Identity>, why: Option<Diagnostic>, offences: seq<Offence>): Findings {
    var duplicated := |ByPid(identities)| != |identities|;
    Findings(Or(why, if duplicated then Some(Diagnostic(GroupMember, ChangedIdentityOrGroup)) else None),
             offences, false)
  }

  /** The snapshot says exactly what the fold over all reads found. */
  ghost predicate Faithful(s: Snapshot, f: Findings, seg: seq<Event>) {
    && s.why == f.why
    && s.coverage == (if f.why.Some? then CoverageUnknown else CoverageComplete)
    && s.offences == Merge(f.offences)
    && s.signalled == |SignalledPids(seg)|
    && s.drain == NotApplicable && !s.targetUnknown
  }

  /** Every tracked group scanned before and after signalling, every target and every other tracked
      pid observed last of all. */
  ghost predicate Thorough(s: Snapshot, seg: seq<Event>, ctx: Context, trackedPids: set<int>, trackedPgids: set<int>) {
    && (forall g :: g in trackedPgids ==> TableRead(seg, FromPreSignalScan, g))
    && Settled(s.targets, seg, ctx.ids, trackedPgids, trackedPids - ctx.ids.Keys)
  }

  method CleanupBirthBound(os: Os, identities: seq<Identity>, trackedPids: set<int>, trackedPgids: set<int>,
                           pidGroups: set<(int, int)>, observed: seq<Identity>,
                           coverage: Coverage, why: Option<Diagnostic>, offences: seq<Offence>)
    returns (result: Option<Snapshot>, ghost seg: seq<Event>)
    modifies os
    ensures os.trace == old(os.trace) + seg
    ensures SignalsJustified(seg, ByPid(identities))
    ensures (Pursued(seg, ByPid(identities)) && InTurn(seg, PidsInOrder(identities)))
      || (AtStage(seg, 0) && result.None?)
    ensures if DiagnosticFits(coverage, why)
      then Concluded(result, ContextOf(identities, observed, pidGroups), Prior(identities, why, offences),
                     seg, trackedPids, trackedPgids)
      else result.None? && seg == []
  {
    seg, result := [], None;
    if !DiagnosticFits(coverage, why) { return; }
    var order, ids := IndexByPid(identities);
    ByPidFacts(identities);
    var ctx := Context(ids, observed, pidGroups);
    var detected, first := ScanTrackedGroups(os, ctx, FromPreSignalScan, trackedPgids, ids);
    seg := first;
    if detected.None? {
      RaisedByReads(ctx, Prior(identities, why, offences), first, trackedPids, trackedPgids);
      AtStageIsStaged(first, 0);
      PassiveIsIdle(first, ids);
      return;
    }
    ghost var rest;
    result, rest := AfterDetection(os, ctx, order, identities, trackedPids, trackedPgids, coverage, why, offences,
                                   detected.value, first);
    seg := first + rest;
    TraceJoin(old(os.trace), first, rest);
  }

  /** Signalling and everything after it. */
  method AfterDetection(os: Os, ctx: Context, order: seq<int>, identities: seq<Identity>,
                        trackedPids: set<int>, trackedPgids: set<int>,
                        coverage: Coverage, why: Option<Diagnostic>, offences: seq<Offence>,
                        detected: (Option<Diagnostic>, seq<Offence>), ghost first: seq<Event>)
    returns (result: Option<Snapshot>, ghost rest: seq<Event>)
    requires DiagnosticFits(coverage, why) && ctx.ids == ByPid(identities)
    requires NoRepeats(order) && forall pid :: pid in order <==> pid in ctx.ids
    requires forall pid :: pid in ctx.ids ==> ctx.ids[pid].pid == pid
    requires AtStage(first, 0) && Reports(Some(detected), Scan(ctx, NOTHING, first))
    requires (forall g :: g in trackedPgids ==> TableRead(first, FromPreSignalScan, g)) && ScansFinished(first)
    modifies os
    ensures os.trace == old(os.trace) + rest
    ensures SignalsJustified(first + rest, ctx.ids) && Pursued(first + rest, ctx.ids) && InTurn(first + rest, order)
    ensures Concluded(result, ctx, Prior(identities, why, offences), first + rest, trackedPids, trackedPgids)
  {
    result := None;
    var signalled, term, kill := SignalTwice(os, order, ctx.ids);
    var outcome, third := Settle(os, ctx, trackedPgids, trackedPids - ctx.ids.Keys);
    ghost var second := term + kill;
    rest := second + third;
    TraceJoin(old(os.trace), second, third);
    TraceJoin(first, second, third);
    PhasesPursue(first, term, kill, third, ctx.ids, order);
    AtStageIsStaged(first, 0);
    LateIsPassive(third);
    if outcome.None? {
      JoinRejected(ctx, first, second, third);
      RaisedByReads(ctx, Prior(identities, why, offences), first + rest, trackedPids, trackedPgids);
      return;
    }
    result := Assemble(ctx, identities, trackedPids, trackedPgids, coverage, why, offences,
                       detected, signalled, outcome.value, first, second, third);
  }

  /** The snapshot, put together from the phases; None when its own checks refuse it. */
  method Assemble(ctx: Context, identities: seq<Identity>, ghost trackedPids: set<int>, ghost trackedPgids: set<int>,
                  coverage: Coverage, why: Option<Diagnostic>, offences: seq<Offence>,
                  detected: (Option<Diagnostic>, seq<Offence>), signalled: set<int>,
                  outcome: (seq<Target>, Option<Diagnostic>, seq<Offence>),
                  ghost first: seq<Event>, ghost second: seq<Event>, ghost third: seq<Event>)
    returns (result: Option<Snapshot>)
    requires DiagnosticFits(coverage, why) && ctx.ids == ByPid(identities)
    requires OnlySignalReads(second) && SignalledPids(second) == signalled && Passive(first) && Passive(third)
    requires Reports(Some(detected), Scan(ctx, NOTHING, first))
    requires (forall g :: g in trackedPgids ==> TableRead(first, FromPreSignalScan, g)) && ScansFinished(first)
    requires Collected(outcome.1, outcome.2, Scan(ctx, NOTHING, third))
    requires Settled(outcome.0, third, ctx.ids, trackedPgids, trackedPids - ctx.ids.Keys)
    requires Pursued(first + second + third, ctx.ids)
    ensures Concluded(result, ctx, Prior(identities, why, offences), first + second + third, trackedPids, trackedPgids)
  {
    ghost var prior := Prior(identities, why, offences);
    var duplicated := |ctx.ids| != |identities|;
    var known := Or(why, if duplicated then Some(Diagnostic(GroupMember, ChangedIdentityOrGroup)) else None);
    var finalWhy := Or(Or(known, detected.0), outcome.1);
    var merged := MergeObservations(offences + detected.1 + outcome.2);
    var s := Snapshot(outcome.0, if finalWhy.Some? then CoverageUnknown else CoverageComplete, finalWhy,
                      |signalled|, NotApplicable, false, merged);
    JoinFaithful(s, ctx, prior, detected, outcome, first, second, third);
    JoinThorough(s, first, second, third, ctx, trackedPids, trackedPgids);
    ConcludedBy(s, ctx, identities, coverage, why, offences, first + second + third, trackedPids, trackedPgids);
    result := if SnapshotAccepted(s) then Some(s) else None;
  }

  /** Observations were passed in although nothing makes coverage unknown. */
  ghost predicate Unexplained(ctx: Context, prior: Findings, seg: seq<Event>) {
    prior.offences != [] && prior.why.None? && Quiet(ctx, seg)
  }

  /** An exception is raised exactly when some read cannot be recorded, or when observations were
      passed in unexplained; otherwise the snapshot reports the fold. */
  ghost predicate Concluded(result: Option<Snapshot>, ctx: Context, prior: Findings, seg: seq<Event>,
                            trackedPids: set<int>, trackedPgids: set<int>) {
    && (result.None? <==> AnyUnrecordable(ctx, seg) || Unexplained(ctx, prior, seg))
    && (result.Some? ==>
          && Pursued(seg, ctx.ids)
          && SnapshotAccepted(result.value) && Faithful(result.value, Scan(ctx, prior, seg), seg)
          && Thorough(result.value, seg, ctx, trackedPids, trackedPgids))
  }

  lemma RaisedByReads(ctx: Context, prior: Findings, seg: seq<Event>, trackedPids: set<int>, trackedPgids: set<int>)
    requires Scan(ctx, NOTHING, seg).rejected
    ensures Concluded(None, ctx, prior, seg, trackedPids, trackedPgids)
  {
    RejectedIff(ctx, seg);
  }

  lemma JoinRejected(ctx: Context, first: seq<Event>, second: seq<Event>, third: seq<Event>)
    requires OnlySignalReads(second) && Scan(ctx, NOTHING, third).rejected
    ensures Scan(ctx, NOTHING, first + second + third).rejected
  {
    ScanAppend(ctx, first + second, third);
  }

  /** A snapshot that reports the fold passes its own checks unless its observations are unexplained. */
  lemma AcceptedIff(s: Snapshot, ctx: Context, identities: seq<Identity>, coverage: Coverage, why: Option<Diagnostic>,
                    offences: seq<Offence>, seg: seq<Event>)
    requires DiagnosticFits(coverage, why)
    requires var f := Scan(ctx, Prior(identities, why, offences), seg); !f.rejected && Faithful(s, f, seg)
    ensures !AnyUnrecordable(ctx, seg)
    ensures SnapshotAccepted(s) <==> !Unexplained(ctx, Prior(identities, why, offences), seg)
  {
    var prior := Prior(identities, why, offences);
    ScanFrom(ctx, prior, seg);
    FindingsAreWitnessed(ctx, seg);
    RejectedIff(ctx, seg);
    CleanIffQuiet(ctx, seg);
    MergeEmptyIff(Scan(ctx, prior, seg).offences);
  }

  lemma ConcludedBy(s: Snapshot, ctx: Context, identities: seq<Identity>, coverage: Coverage, why: Option<Diagnostic>,
                    offences: seq<Offence>, seg: seq<Event>, trackedPids: set<int>, trackedPgids: set<int>)
    requires DiagnosticFits(coverage, why)
    requires var f := Scan(ctx, Prior(identities, why, offences), seg); !f.rejected && Faithful(s, f, seg)
    requires Thorough(s, seg, ctx, trackedPids, trackedPgids) && Pursued(seg, ctx.ids)
    ensures Concluded(if SnapshotAccepted(s) then Some(s) else None, ctx, Prior(identities, why, offences),
                      seg, trackedPids, trackedPgids)
  {
    AcceptedIff(s, ctx, identities, coverage, why, offences, seg);
  }

  lemma JoinFaithful(s: Snapshot, ctx: Context, prior: Findings,
                     detected: (Option<Diagnostic>, seq<Offence>),
                     outcome: (seq<Target>, Option<Diagnostic>, seq<Offence>),
                     first: seq<Event>, second: seq<Event>, third: seq<Event>)
    requires OnlySignalReads(second) && Passive(first) && Passive(third) && !prior.rejected
    requires Reports(Some(detected), Scan(ctx, NOTHING, first))
    requires Collected(outcome.1, outcome.2, Scan(ctx, NOTHING, third))
    requires s.why == Or(Or(prior.why, detected.0), outcome.1)
    requires s.coverage == if s.why.Some? then CoverageUnknown else CoverageComplete
    requires s.offences == Merge(prior.offences + detected.1 + outcome.2)
    requires s.signalled == |SignalledPids(second)| && s.drain == NotApplicable && !s.targetUnknown
    ensures var f := Scan(ctx, prior, first + second + third);
      !f.rejected && Faithful(s, f, first + second + third)
  {
    JoinScans(ctx, prior, first, second, third);
    JoinSignals(first, second, third);
    JoinOffences(prior.offences, detected.1, Scan(ctx, NOTHING, first).offences,
                 outcome.2, Scan(ctx, NOTHING, third).offences);
  }

  lemma JoinSignals(first: seq<Event>, second: seq<Event>, third: seq<Event>)
    requires Passive(first) && Passive(third)
    ensures SignalledPids(first + second + third) == SignalledPids(second)
  {
    SignalledConcat(first, second);
    SignalledConcat(first + second, third);
    NoSignalsNoPids(first);
    NoSignalsNoPids(third);
  }

  lemma JoinScans(ctx: Context, prior: Findings, first: seq<Event>, second: seq<Event>, third: seq<Event>)
    requires OnlySignalReads(second)
    ensures Scan(ctx, prior, first + second + third)
         == Then(Then(prior, Scan(ctx, NOTHING, first)), Scan(ctx, NOTHING, third))
  {
    SignalReadsAreQuiet(ctx, second);
    ScanConcat(ctx, prior, first + second, third);
    ScanConcat(ctx, prior, first, second);
    ScanFrom(ctx, prior, first);
    ScanFrom(ctx, Scan(ctx, prior, first), second);
    ScanFrom(ctx, Scan(ctx, prior, first + second), third);
    var f := Then(prior, Scan(ctx, NOTHING, first));
    assert f.offences + [] == f.offences;
  }

  lemma JoinOffences(prior: seq<Offence>, a: seq<Offence>, rawA: seq<Offence>, b: seq<Offence>, rawB: seq<Offence>)
    requires a == Merge(rawA) && Merge(b) == Merge(rawB)
    ensures Merge(prior + a + b) == Merge(prior + rawA + rawB)
  {
    MergeFlattens(prior, rawA);
    MergeFlattens(prior + a, b);
    MergeFlattens(prior + a, rawB);
    MergeFlattens(prior + rawA, rawB);
  }

  lemma JoinThorough(s: Snapshot, first: seq<Event>, second: seq<Event>, third: seq<Event>, ctx: Context,
                     trackedPids: set<int>, trackedPgids: set<int>)
    requires (forall g :: g in trackedPgids ==> TableRead(first, FromPreSignalScan, g)) && ScansFinished(first)
    requires OnlySignalReads(second)
    requires Settled(s.targets, third, ctx.ids, trackedPgids, trackedPids - ctx.ids.Keys)
    ensures Thorough(s, first + second + third, ctx, trackedPids, trackedPgids)
  {
    NoScansFinished(second);
    ScansConcat(first, second);
    TableReadConcat(first, second);
    TableReadConcat(first + second, third);
    SettledLater(s.targets, first + second, third, ctx.ids, trackedPgids, trackedPids - ctx.ids.Keys);
  }

  // ---- what the verdict means ----

  /** The cleanup is complete exactly when the caller's coverage was complete, the captured pids
      were distinct, every read passed, and no target was last read running with its birth. */
  lemma CompleteIff(s: Snapshot, ctx: Context, identities: seq<Identity>, coverage: Coverage, why: Option<Diagnostic>,
                    offences: seq<Offence>, seg: seq<Event>)
    requires DiagnosticFits(coverage, why)
    requires var f := Scan(ctx, Prior(identities, why, offences), seg); Faithful(s, f, seg) && !f.rejected
    requires TargetsObserved(s.targets, seg, ctx.ids) && ctx.ids == ByPid(identities)
    ensures CleanupStatus(s) == Complete <==>
      && coverage == CoverageComplete && DistinctPids(identities)
      && Quiet(ctx, seg)
      && !AnyOutcome(s.targets, StillAlive)
    ensures CleanupStatus(s) == Unknown <==> s.coverage == CoverageUnknown
  {
    var prior := Prior(identities, why, offences);
    ScanFrom(ctx, prior, seg);
    ByPidFacts(identities);
    CleanIffQuiet(ctx, seg);
    QuietTargetsAreKnown(s.targets, ctx, seg);
  }

  lemma QuietTargetsAreKnown(targets: seq<Target>, ctx: Context, seg: seq<Event>)
    requires TargetsObserved(targets, seg, ctx.ids)
    ensures Quiet(ctx, seg) ==> !AnyOutcome(targets, OutcomeUnknown)
  {
    var order := Sorted(ctx.ids.Keys);
    forall k | 0 <= k < |targets| && Quiet(ctx, seg) ensures targets[k].outcome != OutcomeUnknown {
      QuietTargetIsKnown(targets[k], ctx, seg, order[k]);
    }
  }

  lemma QuietTargetIsKnown(t: Target, ctx: Context, seg: seq<Event>, pid: int)
    requires pid in ctx.ids && TargetFrom(t, seg, ctx.ids[pid], pid) && Quiet(ctx, seg)
    ensures t.outcome != OutcomeUnknown
  {
    var e := LastRead(seg, pid).value;
    LastReadIsEvent(seg, pid);
    assert Judge(ctx, e) == JudgeTarget(ctx.ids[pid], e.obs);
  }

  /** The group was scanned; every table of it was complete, and all its members were read, the leader
      probe deciding for an empty table; every member read was captured and is gone or unchanged, and
      so is a leader that the probe found to be a member. */
  ghost predicate OnlyCaptured(seg: seq<Event>, source: Source, pgid: int, ids: map<int, Identity>) {
    && TableRead(seg, source, pgid) && Finished(seg, source, pgid)
    && (forall members, complete :: GroupTable(source, pgid, members, complete) in seg ==>
          complete && forall pid :: pid in members ==> pid in ids)
    && (forall pid, obs :: Read(GroupScan(source, pgid), pid, obs) in seg ==> CapturedUnchanged(ids, pgid, pid, obs))
    && (forall obs :: Read(LeaderProbe(source, pgid), pgid, obs) in seg ==>
          && (obs.None? || Readable(obs))
          && (LeaderIsMember(obs, pgid) ==> pgid in ids))
  }

  /** An empty table hides nobody: a leader that the probe finds in the group is captured, was read as a
      member, and is gone or unchanged. */
  lemma ProbedLeaderIsCaptured(seg: seq<Event>, source: Source, pgid: int, ids: map<int, Identity>,
                               probe: Option<Observation>)
    requires OnlyCaptured(seg, source, pgid, ids)
    requires Read(LeaderProbe(source, pgid), pgid, probe) in seg && LeaderIsMember(probe, pgid)
    ensures exists obs :: Read(GroupScan(source, pgid), pgid, obs) in seg && CapturedUnchanged(ids, pgid, pgid, obs)
  {
    assert WasRead(seg, GroupScan(source, pgid), pgid);
    var obs :| Read(GroupScan(source, pgid), pgid, obs) in seg;
    assert CapturedUnchanged(ids, pgid, pgid, obs);
  }

  lemma QuietMember(ctx: Context, seg: seq<Event>, source: Source, pgid: int, pid: int)
    requires Quiet(ctx, seg) && WasRead(seg, GroupScan(source, pgid), pid)
    ensures pid in ctx.ids
  {
    var obs :| Read(GroupScan(source, pgid), pid, obs) in seg;
    assert Judge(ctx, Read(GroupScan(source, pgid), pid, obs)) == Pass;
    MemberPasses(ctx.ids, source, pgid, pid, obs);
  }

  lemma QuietGroup(ctx: Context, seg: seq<Event>, source: Source, pgid: int)
    requires Quiet(ctx, seg) && TableRead(seg, source, pgid) && ScansFinished(seg)
    ensures OnlyCaptured(seg, source, pgid, ctx.ids)
  {
    assert Finished(seg, source, pgid);
    forall members, complete | GroupTable(source, pgid, members, complete) in seg
      ensures complete && forall pid :: pid in members ==> pid in ctx.ids
    {
      assert Judge(ctx, GroupTable(source, pgid, members, complete)) == Pass;
      forall pid | pid in members ensures pid in ctx.ids { QuietMember(ctx, seg, source, pgid, pid); }
    }
    forall pid, obs | Read(GroupScan(source, pgid), pid, obs) in seg
      ensures CapturedUnchanged(ctx.ids, pgid, pid, obs)
    {
      assert Judge(ctx, Read(GroupScan(source, pgid), pid, obs)) == Pass;
      MemberPasses(ctx.ids, source, pgid, pid, obs);
    }
    forall obs | Read(LeaderProbe(source, pgid), pgid, obs) in seg
      ensures obs.None? || Readable(obs)
      ensures LeaderIsMember(obs, pgid) ==> pgid in ctx.ids
    {
      assert Judge(ctx, Read(LeaderProbe(source, pgid), pgid, obs)) == Pass;
      if LeaderIsMember(obs, pgid) { QuietMember(ctx, seg, source, pgid, pgid); }
    }
  }

  /** Gone, a zombie, or another birth in its place. */
  predicate NoLonger(obs: Option<Observation>, id: Identity) {
    obs.None? || (obs.value.state != Unreadable && (obs.value.state == Zombie || obs.value.birth != id.birth))
  }

  /** What a complete verdict establishes about the last look at everything that was tracked. */
  ghost predicate NothingLeft(seg: seq<Event>, identities: seq<Identity>, observed: seq<Identity>,
                              trackedPids: set<int>, trackedPgids: set<int>) {
    var ids := ByPid(identities);
    && (forall g :: g in trackedPgids ==>
          OnlyCaptured(seg, FromPreSignalScan, g, ids) && OnlyCaptured(seg, FromPostSignalRescan, g, ids))
    && (forall id :: id in identities ==>
          LastReadAt(seg, id.pid, TargetVerdict) && NoLonger(LastRead(seg, id.pid).value.obs, id))
    && (forall pid :: pid in trackedPids && pid !in ids ==>
          LastReadAt(seg, pid, HistoryCheck) && NotOurs(LastRead(seg, pid).value.obs, observed, pid))
  }

  lemma CompleteIsSound(s: Snapshot, identities: seq<Identity>, observed: seq<Identity>, pidGroups: set<(int, int)>,
                        trackedPids: set<int>, trackedPgids: set<int>,
                        coverage: Coverage, why: Option<Diagnostic>, offences: seq<Offence>, seg: seq<Event>)
    requires DiagnosticFits(coverage, why)
    requires Concluded(Some(s), ContextOf(identities, observed, pidGroups), Prior(identities, why, offences),
                       seg, trackedPids, trackedPgids)
    requires CleanupStatus(s) == Complete
    ensures coverage == CoverageComplete && DistinctPids(identities)
    ensures |s.targets| == |identities|
    ensures NothingLeft(seg, identities, observed, trackedPids, trackedPgids)
  {
    var ctx := ContextOf(identities, observed, pidGroups);
    RejectedIff(ctx, seg);
    ScanFrom(ctx, Prior(identities, why, offences), seg);
    CompleteIff(s, ctx, identities, coverage, why, offences, seg);
    ByPidFacts(identities);
    forall g | g in trackedPgids
      ensures OnlyCaptured(seg, FromPreSignalScan, g, ctx.ids) && OnlyCaptured(seg, FromPostSignalRescan, g, ctx.ids)
    {
      QuietGroup(ctx, seg, FromPreSignalScan, g);
      QuietGroup(ctx, seg, FromPostSignalRescan, g);
    }
    forall id | id in identities
      ensures LastReadAt(seg, id.pid, TargetVerdict) && NoLonger(LastRead(seg, id.pid).value.obs, id)
    {
      IdentityGone(s, ctx, identities, seg, id);
    }
    forall pid | pid in trackedPids && pid !in ctx.ids
      ensures LastReadAt(seg, pid, HistoryCheck) && NotOurs(LastRead(seg, pid).value.obs, observed, pid)
    {
      assert pid in trackedPids - ctx.ids.Keys;
      LastReadIsEvent(seg, pid);
      var obs := LastRead(seg, pid).value.obs;
      assert Judge(ctx, LastRead(seg, pid).value) == JudgeHistory(ctx, pid, obs);
      HistoryPasses(ctx, pid, obs);
    }
  }

  lemma IdentityGone(s: Snapshot, ctx: Context, identities: seq<Identity>, seg: seq<Event>, id: Identity)
    requires ctx.ids == ByPid(identities) && DistinctPids(identities) && id in identities
    requires TargetsObserved(s.targets, seg, ctx.ids) && Quiet(ctx, seg) && !AnyOutcome(s.targets, StillAlive)
    ensures LastReadAt(seg, id.pid, TargetVerdict) && NoLonger(LastRead(seg, id.pid).value.obs, id)
  {
    ByPidFacts(identities);
    var order := Sorted(ctx.ids.Keys);
    assert id.pid in order;
    var k :| 0 <= k < |order| && order[k] == id.pid;
    assert TargetFrom(s.targets[k], seg, ctx.ids[id.pid], id.pid);
    assert s.targets[k] in s.targets;
    var obs := LastRead(seg, id.pid).value.obs;
    LastReadIsEvent(seg, id.pid);
    assert Judge(ctx, LastRead(seg, id.pid).value) == JudgeTarget(ctx.ids[id.pid], obs);
    TargetMeansRead(ctx.ids[id.pid], obs);
    assert ctx.ids[id.pid] == id by {
      var i :| 0 <= i < |identities| && identities[i] == id;
      var j :| 0 <= j < |identities| && identities[j] == ctx.ids[id.pid];
    }
  }
}
