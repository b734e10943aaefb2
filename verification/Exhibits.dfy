/**
 Concrete traces of a cleanup after which evidence cannot be built: the snapshots are exactly what
 the cleanup concludes from these reads.
 */
module Exhibits {
  import opened Base
  import opened Processes
  import opened OperatingSystem
  import opened Merging
  import opened Judging
  import opened GroupScans
  import opened Signalling
  import opened Cleanup
  import opened Receipts
  import opened EvalManager

  const ROOT := Identity(10, 10, "birth", Running)
  const UNREADABLE := Some(Observation(10, 10, "", Unreadable, None, Untagged))

  function Contextual(): Context { ContextOf([ROOT], [], {}) }

  lemma OneTarget()
    ensures ByPid([ROOT]) == map[10 := ROOT] && Contextual() == Context(map[10 := ROOT], [], {})
    ensures Prior([ROOT], None, []) == NOTHING && Sorted(Contextual().ids.Keys) == [10]
  {
    assert [ROOT][..0] == [] && ByPid([]) == map[];
    assert |ByPid([ROOT])| == 1;
    var order := Sorted({10});
    assert order[0] in order;
    assert map[10 := ROOT].Keys == {10};
  }

  lemma ScanSnoc(ctx: Context, seg: seq<Event>, e: Event)
    ensures Scan(ctx, NOTHING, seg + [e]) == Note(Scan(ctx, NOTHING, seg), Judge(ctx, e))
  {
    assert (seg + [e])[..|seg|] == seg;
  }

  lemma QuietAfter(ctx: Context, seg: seq<Event>, more: seq<Event>)
    requires Quiet(ctx, more)
    ensures Scan(ctx, NOTHING, seg + more) == Scan(ctx, NOTHING, seg)
  {
    ScanAppend(ctx, seg, more);
    CleanIffQuiet(ctx, more);
    var f := Scan(ctx, NOTHING, seg);
    assert f.offences + [] == f.offences;
  }

  lemma MergeOne(o: Offence)
    ensures Merge([o]) == [o] && Merge([]) == []
  {
    var s := [o];
    assert s[..|s| - 1] == [];
    StepNew([], o);
    assert Merge(s) == Step(Merge([]), o);
  }

  /** A snapshot that reports one diagnostic with one observation, as found, is what is concluded. */
  lemma ConcludesOne(s: Snapshot, seg: seq<Event>, pids: set<int>, why: Diagnostic, o: Offence)
    requires Scan(Contextual(), NOTHING, seg) == Findings(Some(why), [o], false) && AllowedPair(why)
    requires Thorough(s, seg, Contextual(), pids, {10}) && NoSignals(seg) && Pursued(seg, Contextual().ids)
    requires s == Snapshot(s.targets, CoverageUnknown, Some(why), 0, NotApplicable, false, [o])
    ensures Concluded(Some(s), Contextual(), Prior([ROOT], None, []), seg, pids, {10})
  {
    OneTarget();
    MergeOne(o);
    RejectedIff(Contextual(), seg);
    NoSignalsNoPids(seg);
  }

  /** An uncaptured member reported before an unreadable target: no evidence can be built. */
  lemma MemberFirst(s: Snapshot, o: Offence, t: Target)
    requires s.coverage == CoverageUnknown && s.why == Some(Diagnostic(GroupMember, UncapturedMember))
      && s.drain == Drained
    requires s.offences == [o] && ValidOffence(o) && o.state == SeenAbsent
    requires t in s.targets && t.outcome == OutcomeUnknown
    ensures SoundSnapshot(s) && CleanupStatus(s) == Unknown
    ensures ValidUnknownReceipt(UnknownReceiptOf("probe", 10, 10, s)) && !Consistent(UnknownEvidence(s))
  {
    assert o in s.offences;
    UnknownReceiptIsValid("probe", 10, 10, s);
    UnknownEvidenceBuildsIff(s);
  }

  /** The target diagnostic first, with an observation: the aggregate is valid, its evidence is not. */
  lemma TargetFirst(s: Snapshot, o: Offence)
    requires s.coverage == CoverageUnknown && s.why == Some(TARGET_UNKNOWN) && s.offences == [o] && ValidOffence(o)
    ensures SoundSnapshot(s) && ValidEvalReceipt(EvalReceiptOf([s])) && Announced([s], true, true) == None
  {
    OneSnapshot(s);
    AnnouncedFits([s], true, true);
  }

  /** Two scans with other events between and after them. */
  lemma TwoScans(pre: seq<Event>, mid: seq<Event>, post: seq<Event>, tail: seq<Event>)
    requires ScansFinished(pre) && TableRead(pre, FromPreSignalScan, 10) && NoSignals(pre)
    requires ScansFinished(post) && TableRead(post, FromPostSignalRescan, 10) && NoSignals(post)
    requires NoScans(mid) && NoScans(tail) && NoSignals(mid) && NoSignals(tail)
    ensures var seg := pre + mid + post + tail;
      && ScansFinished(seg) && NoSignals(seg)
      && TableRead(seg, FromPreSignalScan, 10) && TableRead(seg, FromPostSignalRescan, 10)
  {
    NoScansFinished(mid);
    NoScansFinished(tail);
    ScansConcat(pre, mid);
    ScansConcat(pre + mid, post);
    ScansConcat(pre + mid + post, tail);
    TableReadConcat(pre, mid);
    TableReadConcat(pre + mid, post);
    TableReadConcat(pre + mid + post, tail);
  }

  lemma TargetSeen(seg: seq<Event>)
    requires LastRead(seg, 10) == Some(Read(TargetVerdict, 10, UNREADABLE))
    ensures TargetsObserved([ObserveTarget(ROOT, UNREADABLE)], seg, Contextual().ids)
  {
    OneTarget();
    assert ValidTarget(ObserveTarget(ROOT, UNREADABLE));
    assert TargetFrom(ObserveTarget(ROOT, UNREADABLE), seg, ROOT, 10);
  }

  // ---- an uncaptured member, then an unreadable target ----

  const GHOST :=
    Offence(11, 10, Some(10), None, None, None, FromPreSignalScan, SeenAbsent, AdmissionClosed, Some(1), Untagged)

  function MemberScan(): seq<Event> {
    [GroupTable(FromPreSignalScan, 10, {11}, true)] + [Read(GroupScan(FromPreSignalScan, 10), 11, None)]
  }

  function Selections(): seq<Event> { [Read(Selection(Term), 10, UNREADABLE), Read(Selection(Kill), 10, UNREADABLE)] }

  /** An unreadable target is selected for neither signal. */
  lemma NotSelected(sig: Sig)
    ensures PhaseDone([Read(Selection(sig), 10, UNREADABLE)], sig, Contextual().ids, [10])
  {
    OneTarget();
    var seg := [Read(Selection(sig), 10, UNREADABLE)];
    assert seg[0] in seg && WasRead(seg, Selection(sig), 10);
    assert seg[..0] == [] && [10][1..] == [];
  }

  lemma NothingToPursue(first: seq<Event>, last: seq<Event>)
    requires AtStage(first, 0) && Staged(last, 3, 5)
    ensures Pursued(first + Selections() + last, Contextual().ids)
  {
    var term, kill := [Read(Selection(Term), 10, UNREADABLE)], [Read(Selection(Kill), 10, UNREADABLE)];
    NotSelected(Term);
    NotSelected(Kill);
    PhasesPursue(first, term, kill, last, Contextual().ids, [10]);
    assert term + kill == Selections();
  }

  lemma LateStages(scan: seq<Event>, looks: seq<Event>)
    requires AtStage(scan, 3) && Staged(looks, 4, 5)
    ensures Staged(scan + looks, 3, 5)
  {
    AtStageIsStaged(scan, 3);
    StagedConcat(scan, looks, 3, 3, 4, 5);
  }

  function EmptyScan(source: Source): seq<Event> {
    [GroupTable(source, 10, {}, true), Read(LeaderProbe(source, 10), 10, None)]
  }

  function MemberTrace(): seq<Event> {
    MemberScan() + Selections() + EmptyScan(FromPostSignalRescan) + [Read(TargetVerdict, 10, UNREADABLE)]
  }

  function MemberSnapshot(): Snapshot {
    Snapshot([ObserveTarget(ROOT, UNREADABLE)], CoverageUnknown, Some(Diagnostic(GroupMember, UncapturedMember)), 0,
             NotApplicable, false, [GHOST])
  }

  lemma EmptyScanIsQuiet(source: Source)
    ensures Quiet(Contextual(), EmptyScan(source)) && NoSignals(EmptyScan(source))
    ensures ScansFinished(EmptyScan(source)) && TableRead(EmptyScan(source), source, 10)
  {
    assert EmptyScan(source) + [] == EmptyScan(source);
    ScannedTogether(EmptyScan(source), [], source, 10, {});
  }

  lemma MemberFindings()
    ensures Scan(Contextual(), NOTHING, MemberTrace())
      == Findings(Some(Diagnostic(GroupMember, UncapturedMember)), [GHOST], false)
  {
    OneTarget();
    EmptyScanIsQuiet(FromPostSignalRescan);
    var ctx := Contextual();
    var table, read := GroupTable(FromPreSignalScan, 10, {11}, true), Read(GroupScan(FromPreSignalScan, 10), 11, None);
    ScanOne(ctx, table);
    ScanSnoc(ctx, [table], read);
    assert [] + [GHOST] == [GHOST];
    QuietAfter(ctx, MemberScan(), Selections());
    QuietAfter(ctx, MemberScan() + Selections(), EmptyScan(FromPostSignalRescan));
    ScanSnoc(ctx, MemberScan() + Selections() + EmptyScan(FromPostSignalRescan), Read(TargetVerdict, 10, UNREADABLE));
    assert [GHOST] + [] == [GHOST];
  }

  lemma MemberScanDone()
    ensures ScansFinished(MemberScan()) && TableRead(MemberScan(), FromPreSignalScan, 10) && NoSignals(MemberScan())
  {
    var read := Read(GroupScan(FromPreSignalScan, 10), 11, None);
    assert [read][0] == read && WasRead([read], GroupScan(FromPreSignalScan, 10), 11);
    ScannedTogether([GroupTable(FromPreSignalScan, 10, {11}, true)], [read], FromPreSignalScan, 10, {11});
  }

  lemma MemberThorough()
    ensures Thorough(MemberSnapshot(), MemberTrace(), Contextual(), {10}, {10}) && NoSignals(MemberTrace())
  {
    var read := Read(TargetVerdict, 10, UNREADABLE);
    MemberScanDone();
    EmptyScanIsQuiet(FromPostSignalRescan);
    TwoScans(MemberScan(), Selections(), EmptyScan(FromPostSignalRescan), [read]);
    LastReadSnoc(MemberScan() + Selections() + EmptyScan(FromPostSignalRescan), read, 10);
    TargetSeen(MemberTrace());
    OneTarget();
    assert {10} - Contextual().ids.Keys == {};
  }

  lemma MemberPursued()
    ensures Pursued(MemberTrace(), Contextual().ids)
  {
    var last := EmptyScan(FromPostSignalRescan) + [Read(TargetVerdict, 10, UNREADABLE)];
    LateStages(EmptyScan(FromPostSignalRescan), [Read(TargetVerdict, 10, UNREADABLE)]);
    NothingToPursue(MemberScan(), last);
    assert MemberScan() + Selections() + last == MemberTrace();
  }

  /** The cleanup concludes this snapshot from this trace, its receipt is valid, and the evidence that
      should announce it cannot be built once the watcher has drained. */
  lemma UnknownEvidenceFailsOnTrace()
    ensures Concluded(Some(MemberSnapshot()), Contextual(), Prior([ROOT], None, []), MemberTrace(), {10}, {10})
    ensures var s := MemberSnapshot().(drain := Drained);
      && SoundSnapshot(s) && CleanupStatus(s) == Unknown
      && ValidUnknownReceipt(UnknownReceiptOf("probe", 10, 10, s)) && !Consistent(UnknownEvidence(s))
  {
    MemberFindings();
    MemberThorough();
    MemberPursued();
    ConcludesOne(MemberSnapshot(), MemberTrace(), {10}, Diagnostic(GroupMember, UncapturedMember), GHOST);
    MemberFirst(MemberSnapshot().(drain := Drained), GHOST, ObserveTarget(ROOT, UNREADABLE));
  }

  // ---- an unreadable target, then a tracked process nobody captured ----

  const STRAY := Observation(12, 10, "other", Running, None, Untagged)

  function StrayOffence(): Offence {
    Offence(12, 10, Some(10), None, Some(TextSha("other")), None, FromHistory, SeenRunning, AdmissionClosed, Some(1),
            IdentitySha(OpaqueProcessSha("other")))
  }

  function BeforeStray(): seq<Event> {
    EmptyScan(FromPreSignalScan) + Selections() + EmptyScan(FromPostSignalRescan)
      + [Read(TargetVerdict, 10, UNREADABLE)]
  }

  function StrayTrace(): seq<Event> { BeforeStray() + [Read(HistoryCheck, 12, Some(STRAY))] }

  function StraySnapshot(): Snapshot {
    Snapshot([ObserveTarget(ROOT, UNREADABLE)], CoverageUnknown, Some(TARGET_UNKNOWN), 0, NotApplicable, false,
             [StrayOffence()])
  }

  lemma BeforeStrayFindings()
    ensures Scan(Contextual(), NOTHING, BeforeStray()) == Findings(Some(TARGET_UNKNOWN), [], false)
  {
    OneTarget();
    EmptyScanIsQuiet(FromPreSignalScan);
    EmptyScanIsQuiet(FromPostSignalRescan);
    var ctx := Contextual();
    var pre, post := EmptyScan(FromPreSignalScan), EmptyScan(FromPostSignalRescan);
    CleanIffQuiet(ctx, pre);
    QuietAfter(ctx, pre, Selections());
    QuietAfter(ctx, pre + Selections(), post);
    ScanSnoc(ctx, pre + Selections() + post, Read(TargetVerdict, 10, UNREADABLE));
    var none: seq<Offence> := [];
    assert none + [] == none;
  }

  lemma StrayFindings()
    ensures Scan(Contextual(), NOTHING, StrayTrace()) == Findings(Some(TARGET_UNKNOWN), [StrayOffence()], false)
  {
    BeforeStrayFindings();
    StrayIsFlagged();
    ScanSnoc(Contextual(), BeforeStray(), Read(HistoryCheck, 12, Some(STRAY)));
    assert [] + [StrayOffence()] == [StrayOffence()];
  }

  lemma StrayIsFlagged()
    ensures JudgeHistory(Contextual(), 12, Some(STRAY))
      == Flag(Diagnostic(GroupMember, UncapturedMember), Some(StrayOffence()))
  {
    assert History([], 12) == [] && SameBirth([], "other") == [];
    assert GroupsOf({}, 12) == {};
  }

  lemma StrayLastReads()
    ensures LastRead(StrayTrace(), 10) == Some(Read(TargetVerdict, 10, UNREADABLE))
    ensures LastRead(StrayTrace(), 12) == Some(Read(HistoryCheck, 12, Some(STRAY)))
  {
    var stray := Read(HistoryCheck, 12, Some(STRAY));
    LastReadSnoc(EmptyScan(FromPreSignalScan) + Selections() + EmptyScan(FromPostSignalRescan),
                  Read(TargetVerdict, 10, UNREADABLE), 10);
    LastReadSnoc(BeforeStray(), stray, 10);
    LastReadSnoc(BeforeStray(), stray, 12);
  }

  lemma StrayScans()
    ensures ScansFinished(StrayTrace()) && NoSignals(StrayTrace())
    ensures TableRead(StrayTrace(), FromPreSignalScan, 10) && TableRead(StrayTrace(), FromPostSignalRescan, 10)
  {
    var pre, post := EmptyScan(FromPreSignalScan), EmptyScan(FromPostSignalRescan);
    var target, stray := [Read(TargetVerdict, 10, UNREADABLE)], [Read(HistoryCheck, 12, Some(STRAY))];
    EmptyScanIsQuiet(FromPreSignalScan);
    EmptyScanIsQuiet(FromPostSignalRescan);
    TwoScans(pre, Selections(), post, target + stray);
    assert pre + Selections() + post + (target + stray) == StrayTrace();
  }

  lemma StrayThorough()
    ensures Thorough(StraySnapshot(), StrayTrace(), Contextual(), {10, 12}, {10})
  {
    StrayScans();
    StrayLastReads();
    TargetSeen(StrayTrace());
    OneTarget();
    assert {10, 12} - Contextual().ids.Keys == {12};
  }

  lemma StrayPursued()
    ensures Pursued(StrayTrace(), Contextual().ids)
  {
    var pre, post := EmptyScan(FromPreSignalScan), EmptyScan(FromPostSignalRescan);
    var looks := [Read(TargetVerdict, 10, UNREADABLE)] + [Read(HistoryCheck, 12, Some(STRAY))];
    var last := post + looks;
    LateStages(post, looks);
    NothingToPursue(pre, last);
    assert pre + Selections() + last == StrayTrace();
  }

  /** A run whose only snapshot is this one leaves an aggregate receipt that is valid and evidence that
      cannot be built. */
  lemma EvalEvidenceFailsOnTrace()
    ensures Concluded(Some(StraySnapshot()), Contextual(), Prior([ROOT], None, []), StrayTrace(), {10, 12}, {10})
    ensures SoundSnapshot(StraySnapshot()) && ValidEvalReceipt(EvalReceiptOf([StraySnapshot()]))
    ensures Announced([StraySnapshot()], true, true) == None
  {
    StrayFindings();
    StrayScans();
    StrayThorough();
    StrayPursued();
    ConcludesOne(StraySnapshot(), StrayTrace(), {10, 12}, TARGET_UNKNOWN, StrayOffence());
    TargetFirst(StraySnapshot(), StrayOffence());
  }

  lemma OneSnapshot(s: Snapshot)
    requires SoundSnapshot(s) && CleanupStatus(s) == Unknown && s.why.Some? && s.offences != []
    ensures FirstWhy([s]) == s.why.value && ObservationsPresent([s]) && AllSound([s])
  {
    var l := [s];
    assert l[..|l| - 1] == [] && s in l;
    assert Unknowns(l) == Unknowns([]) + l == l;
    OneEvidence(s);
  }

  lemma OneEvidence(s: Snapshot)
    requires s.why.Some? && s.offences != []
    ensures EvidenceOf([s]) != [] && EvidenceOf([s])[0].why == s.why.value
  {
    var l := [s];
    assert l[..|l| - 1] == [];
    assert EvidenceOf([]) == [];
  }
}
