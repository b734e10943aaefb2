/**
 The process manager of an evaluation: every run captures a scope, waits, cleans up and records a
 terminal snapshot; finalising folds the snapshots into one verdict and publishes evidence once.
 */
module EvalManager {
  import opened Base
  import opened Processes
  import opened OperatingSystem
  import opened Merging
  import opened Judging
  import opened Signalling
  import opened Cleanup
  import opened Admission
  import opened Receipts

  // ---- the aggregate receipt ----

  datatype SnapshotEvidence = SnapshotEvidence(why: Diagnostic, count: int, offences: seq<Offence>)

  datatype EvalMaterial = EvalMaterial(
    snapshotCount: int, unknownCount: int, snapshots: seq<SnapshotEvidence>, count: int, offences: seq<Offence>)

  predicate ValidSnapshotEvidence(e: SnapshotEvidence) {
    && AllowedPair(e.why) && AllValid(e.offences)
    && e.count == Total(e.offences)
    && Witnessed(Some(e.why), e.offences)
  }

  function AllOffences(snapshots: seq<SnapshotEvidence>): seq<Offence> {
    if snapshots == [] then []
    else AllOffences(snapshots[..|snapshots| - 1]) + snapshots[|snapshots| - 1].offences
  }

  predicate ValidEvalReceipt(r: Sealed<EvalMaterial>) {
    var m := r.material;
    && m.snapshotCount >= 1 && m.unknownCount >= 1 && m.snapshots != [] && m.count >= 1 && m.offences != []
    && (forall e :: e in m.snapshots ==> ValidSnapshotEvidence(e))
    && m.unknownCount <= m.snapshotCount
    && |m.snapshots| <= m.unknownCount
    && AllValid(m.offences)
    && m.count == Total(m.offences)
    && Merge(AllOffences(m.snapshots)) == m.offences
    && r.digest == Sha(m)
  }

  function Unknowns(s: seq<Snapshot>): seq<Snapshot> {
    if s == [] then []
    else Unknowns(s[..|s| - 1]) + (if CleanupStatus(s[|s| - 1]) == Unknown then [s[|s| - 1]] else [])
  }

  function OffencesOf(s: seq<Snapshot>): seq<Offence> {
    if s == [] then [] else OffencesOf(s[..|s| - 1]) + s[|s| - 1].offences
  }

  predicate Reports(s: Snapshot) { s.why.Some? && s.offences != [] }

  function EvidenceFrom(s: Snapshot): SnapshotEvidence
    requires Reports(s)
  {
    SnapshotEvidence(s.why.value, Total(s.offences), s.offences)
  }

  /** Unknown snapshots that carry observations; the others are dropped from the receipt. */
  function EvidenceOf(unknowns: seq<Snapshot>): seq<SnapshotEvidence> {
    if unknowns == [] then []
    else
      var s := unknowns[|unknowns| - 1];
      EvidenceOf(unknowns[..|unknowns| - 1]) + (if Reports(s) then [EvidenceFrom(s)] else [])
  }

  function EvalReceiptOf(snapshots: seq<Snapshot>): Sealed<EvalMaterial> {
    var unknowns := Unknowns(snapshots);
    var merged := Merge(OffencesOf(unknowns));
    SealUp(EvalMaterial(|snapshots|, |unknowns|, EvidenceOf(unknowns), Total(merged), merged))
  }

  ghost predicate AllSound(snapshots: seq<Snapshot>) { forall s :: s in snapshots ==> SoundSnapshot(s) }

  lemma {:induction false} UnknownsFacts(snapshots: seq<Snapshot>)
    ensures |Unknowns(snapshots)| <= |snapshots|
    ensures forall s :: s in Unknowns(snapshots) <==> s in snapshots && CleanupStatus(s) == Unknown
  {
    if snapshots != [] {
      UnknownsFacts(snapshots[..|snapshots| - 1]);
      assert snapshots == snapshots[..|snapshots| - 1] + [snapshots[|snapshots| - 1]];
    }
  }

  lemma DroppedSnapshot(front: seq<Snapshot>, s: Snapshot)
    requires s.offences == []
    ensures EvidenceOf(front + [s]) == EvidenceOf(front) && OffencesOf(front + [s]) == OffencesOf(front)
  {
    assert (front + [s])[..|front|] == front;
  }

  lemma KeptSnapshot(front: seq<Snapshot>, s: Snapshot)
    requires Reports(s)
    ensures EvidenceOf(front + [s]) == EvidenceOf(front) + [EvidenceFrom(s)]
    ensures OffencesOf(front + [s]) == OffencesOf(front) + s.offences
    ensures AllOffences(EvidenceOf(front) + [EvidenceFrom(s)]) == AllOffences(EvidenceOf(front)) + s.offences
  {
    assert (front + [s])[..|front|] == front;
    assert (EvidenceOf(front) + [EvidenceFrom(s)])[..|EvidenceOf(front)|] == EvidenceOf(front);
  }

  lemma SnapshotReports(s: Snapshot)
    requires SoundSnapshot(s) && s.offences != []
    ensures Reports(s) && ValidSnapshotEvidence(EvidenceFrom(s)) && AllValid(s.offences)
  {}

  /** Every recorded snapshot is sound, so one without a report has no observations either. */
  lemma LastSnapshot(unknowns: seq<Snapshot>) returns (front: seq<Snapshot>, s: Snapshot)
    requires AllSound(unknowns) && unknowns != []
    ensures unknowns == front + [s] && AllSound(front)
    ensures if s.offences == [] then !Reports(s) else
      Reports(s) && ValidSnapshotEvidence(EvidenceFrom(s)) && AllValid(s.offences)
  {
    front, s := unknowns[..|unknowns| - 1], unknowns[|unknowns| - 1];
    assert s in unknowns && forall x :: x in front ==> x in unknowns;
    if s.offences != [] { SnapshotReports(s); }
  }

  /** Dropping the snapshots without observations loses nothing of the aggregate. */
  lemma {:induction false} EvidenceConserves(unknowns: seq<Snapshot>)
    requires AllSound(unknowns)
    ensures AllOffences(EvidenceOf(unknowns)) == OffencesOf(unknowns)
    decreases |unknowns|
  {
    if unknowns != [] {
      var front, s := LastSnapshot(unknowns);
      EvidenceConserves(front);
      if s.offences == [] { DroppedSnapshot(front, s); } else { KeptSnapshot(front, s); }
    }
  }

  lemma {:induction false} EvidenceIsShort(unknowns: seq<Snapshot>)
    ensures |EvidenceOf(unknowns)| <= |unknowns|
  {
    if unknowns != [] { EvidenceIsShort(unknowns[..|unknowns| - 1]); }
  }

  lemma {:induction false} EvidenceIsValid(unknowns: seq<Snapshot>)
    requires AllSound(unknowns)
    ensures forall e :: e in EvidenceOf(unknowns) ==> ValidSnapshotEvidence(e)
    decreases |unknowns|
  {
    if unknowns != [] {
      var front, s := LastSnapshot(unknowns);
      EvidenceIsValid(front);
      if s.offences == [] { DroppedSnapshot(front, s); } else { KeptSnapshot(front, s); }
    }
  }

  lemma {:induction false} OffencesAreValid(unknowns: seq<Snapshot>)
    requires AllSound(unknowns)
    ensures AllValid(OffencesOf(unknowns))
    decreases |unknowns|
  {
    if unknowns != [] {
      var front, s := LastSnapshot(unknowns);
      OffencesAreValid(front);
      if s.offences == [] { DroppedSnapshot(front, s); } else { KeptSnapshot(front, s); }
    }
  }

  lemma {:induction false} EvidenceEmptyIff(unknowns: seq<Snapshot>)
    requires AllSound(unknowns)
    ensures EvidenceOf(unknowns) == [] <==> OffencesOf(unknowns) == []
    decreases |unknowns|
  {
    if unknowns != [] {
      var front, s := LastSnapshot(unknowns);
      EvidenceEmptyIff(front);
      if s.offences == [] { DroppedSnapshot(front, s); } else { KeptSnapshot(front, s); }
    }
  }

  lemma {:induction false} TotalPositive(offences: seq<Offence>)
    requires AllValid(offences)
    ensures Total(offences) >= |offences|
  {
    if offences != [] {
      assert offences[|offences| - 1] in offences;
      assert forall o :: o in offences[..|offences| - 1] ==> o in offences;
      TotalPositive(offences[..|offences| - 1]);
    }
  }

  /** Every aggregate receipt the writer builds passes its validator, and reports all occurrences. */
  lemma EvalReceiptIsValid(snapshots: seq<Snapshot>)
    requires AllSound(snapshots)
    requires OffencesOf(Unknowns(snapshots)) != []
    ensures ValidEvalReceipt(EvalReceiptOf(snapshots))
    ensures var m := EvalReceiptOf(snapshots).material;
      && m.count == Total(OffencesOf(Unknowns(snapshots))) && m.offences == Merge(OffencesOf(Unknowns(snapshots)))
      && m.snapshotCount == |snapshots| && m.unknownCount == |Unknowns(snapshots)|
  {
    UnknownsFacts(snapshots);
    var unknowns := Unknowns(snapshots);
    EvidenceConserves(unknowns);
    EvidenceIsShort(unknowns);
    EvidenceIsValid(unknowns);
    OffencesAreValid(unknowns);
    EvidenceEmptyIff(unknowns);
    var raw := OffencesOf(unknowns);
    MergeKeepsValidity(raw);
    MergeConserves(raw, raw[0]);
    TotalPositive(Merge(raw));
  }

  function AnnounceAggregate(why: Diagnostic, written: bool): Option<Evidence> {
    var e :=
      if written then Evidence(ObservationUnknownEvidence, true, Some(CoverageIsUnknown), Some(why))
      else Evidence(WriteFailed, false, Some(ReceiptWriteFailed), None);
    if Consistent(e) then Some(e) else None
  }

  lemma AnnounceIff(why: Diagnostic, written: bool)
    requires AllowedPair(why)
    ensures AnnounceAggregate(why, written).Some? <==> !written || why.stage != TargetObservation
  {}

  /** The evidence announced for a written aggregate carries the first snapshot's diagnostic. */
  function EvalEvidence(snapshots: seq<Snapshot>, written: bool): Option<Evidence>
    requires EvidenceOf(Unknowns(snapshots)) != []
  {
    AnnounceAggregate(EvidenceOf(Unknowns(snapshots))[0].why, written)
  }

  /** It can be built exactly when the file was not written or that diagnostic is not the target one. */
  lemma EvalEvidenceBuildsIff(snapshots: seq<Snapshot>, written: bool)
    requires AllSound(snapshots) && EvidenceOf(Unknowns(snapshots)) != []
    ensures EvalEvidence(snapshots, written).Some? <==>
      !written || EvidenceOf(Unknowns(snapshots))[0].why.stage != TargetObservation
  {
    UnknownsFacts(snapshots);
    EvidenceIsValid(Unknowns(snapshots));
    var first := EvidenceOf(Unknowns(snapshots))[0];
    assert first in EvidenceOf(Unknowns(snapshots)) && ValidSnapshotEvidence(first);
    AnnounceIff(first.why, written);
  }

  // ---- folding the snapshots ----

  datatype CleanupState = NotRequired | Pending | Passed | Residue | Undetermined

  function Judged(s: Snapshot): CleanupState {
    match CleanupStatus(s) case Complete => Passed case Failed => Residue case Unknown => Undetermined
  }

  function Severity(c: CleanupState): nat {
    match c case NotRequired => 0 case Passed => 1 case Residue => 2 case Undetermined => 3 case Pending => 4
  }

  predicate AnyStatus(snapshots: seq<Snapshot>, status: Status) {
    exists s :: s in snapshots && CleanupStatus(s) == status
  }

  function WorstState(snapshots: seq<Snapshot>): CleanupState {
    if snapshots == [] || AnyStatus(snapshots, Unknown) then Undetermined
    else if AnyStatus(snapshots, Failed) then Residue
    else Passed
  }

  function SumOfKnown(counts: seq<Option<nat>>): nat {
    if counts == [] then 0
    else SumOfKnown(counts[..|counts| - 1]) + (if counts[|counts| - 1].Some? then counts[|counts| - 1].value else 0)
  }

  function Counts(snapshots: seq<Snapshot>): seq<Option<nat>> {
    seq(|snapshots|, i requires 0 <= i < |snapshots| => RemainingProcesses(snapshots[i]))
  }

  function RemainingOver(snapshots: seq<Snapshot>): Option<nat> {
    var counts := Counts(snapshots);
    if counts != [] && (forall c :: c in counts ==> c.Some?) then Some(SumOfKnown(counts)) else None
  }

  function SumOfSignalled(snapshots: seq<Snapshot>): nat {
    if snapshots == [] then 0 else SumOfSignalled(snapshots[..|snapshots| - 1]) + snapshots[|snapshots| - 1].signalled
  }

  /** The verdict is the worst one any snapshot earned on its own. */
  lemma VerdictIsWorst(snapshots: seq<Snapshot>)
    requires snapshots != []
    ensures exists s :: s in snapshots && Judged(s) == WorstState(snapshots)
    ensures forall s :: s in snapshots ==> Severity(Judged(s)) <= Severity(WorstState(snapshots))
  {
    if WorstState(snapshots) == Passed { assert Judged(snapshots[0]) == Passed; }
    if WorstState(snapshots) == Undetermined {
      var s :| s in snapshots && CleanupStatus(s) == Unknown;
      assert Judged(s) == Undetermined;
    }
    if WorstState(snapshots) == Residue {
      var s :| s in snapshots && CleanupStatus(s) == Failed;
      assert Judged(s) == Residue;
    }
  }

  /** The count is known exactly when the verdict is, and zero exactly when it is a pass. */
  lemma RemainingMatchesVerdict(snapshots: seq<Snapshot>)
    ensures RemainingOver(snapshots).None? <==> WorstState(snapshots) == Undetermined
    ensures RemainingOver(snapshots) == Some(0) <==> WorstState(snapshots) == Passed
  {
    var counts := Counts(snapshots);
    forall i | 0 <= i < |snapshots|
      ensures counts[i] in counts
      ensures counts[i].None? <==> CleanupStatus(snapshots[i]) == Unknown
      ensures counts[i] == Some(0) <==> CleanupStatus(snapshots[i]) == Complete
    {
      GroupsAndProcesses(snapshots[i].targets);
    }
    assert forall i :: 0 <= i < |snapshots| ==> snapshots[i] in snapshots;
    SumIsZero(counts);
  }

  lemma {:induction false} SumIsZero(counts: seq<Option<nat>>)
    ensures SumOfKnown(counts) == 0 <==> forall c :: c in counts ==> c.None? || c == Some(0)
  {
    if counts != [] {
      var front, last := counts[..|counts| - 1], counts[|counts| - 1];
      SumIsZero(front);
      assert counts == front + [last] && last in counts;
      assert last.Some? && last.value == 0 ==> last == Some(0);
      assert forall c :: c in counts <==> c in front || c == last;
    }
  }

  lemma CountsGrow(snapshots: seq<Snapshot>, s: Snapshot)
    ensures Counts(snapshots + [s]) == Counts(snapshots) + [RemainingProcesses(s)]
  {}

  lemma StatusesGrow(snapshots: seq<Snapshot>, s: Snapshot, status: Status)
    ensures AnyStatus(snapshots + [s], status) <==> AnyStatus(snapshots, status) || CleanupStatus(s) == status
  {
    var more := snapshots + [s];
    assert more[|snapshots|] == s && forall x :: x in more <==> x in snapshots || x == s;
  }

  function Worse(a: CleanupState, b: CleanupState): CleanupState { if Severity(b) > Severity(a) then b else a }

  function Plus(a: Option<nat>, b: Option<nat>): Option<nat> {
    if a.Some? && b.Some? then Some(a.value + b.value) else None
  }

  lemma WorstGrows(snapshots: seq<Snapshot>, s: Snapshot)
    requires snapshots != []
    ensures WorstState(snapshots + [s]) == Worse(WorstState(snapshots), Judged(s))
  {
    StatusesGrow(snapshots, s, Unknown);
    StatusesGrow(snapshots, s, Failed);
  }

  lemma RemainingGrows(snapshots: seq<Snapshot>, s: Snapshot)
    requires snapshots != []
    ensures RemainingOver(snapshots + [s]) == Plus(RemainingOver(snapshots), RemainingProcesses(s))
  {
    CountsGrow(snapshots, s);
    SumGrows(Counts(snapshots), RemainingProcesses(s));
  }

  lemma SignalledGrows(snapshots: seq<Snapshot>, s: Snapshot)
    ensures SumOfSignalled(snapshots + [s]) == SumOfSignalled(snapshots) + s.signalled
  {
    assert (snapshots + [s])[..|snapshots|] == snapshots;
  }

  /** One more run can only worsen the verdict; counts add up or stay unknown. */
  lemma OneMoreRun(snapshots: seq<Snapshot>, s: Snapshot)
    requires snapshots != []
    ensures WorstState(snapshots + [s]) == Worse(WorstState(snapshots), Judged(s))
    ensures RemainingOver(snapshots + [s]) == Plus(RemainingOver(snapshots), RemainingProcesses(s))
    ensures SumOfSignalled(snapshots + [s]) == SumOfSignalled(snapshots) + s.signalled
  {
    WorstGrows(snapshots, s);
    RemainingGrows(snapshots, s);
    SignalledGrows(snapshots, s);
  }

  /** What recording a snapshot means for the manager's own state. */
  lemma RecordingKeeps(snapshots: seq<Snapshot>, s: Snapshot)
    requires AllSound(snapshots) && SoundSnapshot(s)
    ensures AllSound(snapshots + [s])
    ensures SumOfSignalled(snapshots + [s]) == SumOfSignalled(snapshots) + s.signalled
    ensures snapshots != [] && WorstState(snapshots) == Undetermined ==> WorstState(snapshots + [s]) == Undetermined
  {
    SignalledGrows(snapshots, s);
    if snapshots != [] { WorstGrows(snapshots, s); }
  }

  lemma SumGrows(counts: seq<Option<nat>>, c: Option<nat>)
    ensures SumOfKnown(counts + [c]) == SumOfKnown(counts) + (if c.Some? then c.value else 0)
    ensures (forall x :: x in counts + [c] ==> x.Some?) <==> (forall x :: x in counts ==> x.Some?) && c.Some?
  {
    assert (counts + [c])[..|counts|] == counts && (counts + [c])[|counts|] == c;
    assert forall x :: x in counts ==> x in counts + [c];
  }

  // ---- evidence published when finalising ----

  predicate ObservationsPresent(snapshots: seq<Snapshot>) { exists s :: s in snapshots && s.offences != [] }

  const UNAVAILABLE := Evidence(WriteFailed, false, Some(EvidenceUnavailable), None)

  /** The aggregate writer: the receipt it persists, if any, and the evidence it announces; no
      evidence stands for an exception. */
  function WriteAggregate(snapshots: seq<Snapshot>, written: bool): (Option<Sealed<EvalMaterial>>, Option<Evidence>) {
    if OffencesOf(Unknowns(snapshots)) == [] || EvidenceOf(Unknowns(snapshots)) == [] then (None, Some(UNAVAILABLE))
    else (if written then Some(EvalReceiptOf(snapshots)) else None, EvalEvidence(snapshots, written))
  }

  /** Observations are only ever kept by unknown snapshots with a diagnostic: when some are present
      the writer always has an aggregate to write. */
  lemma {:induction false} PresentMeansAggregate(snapshots: seq<Snapshot>)
    requires AllSound(snapshots)
    ensures ObservationsPresent(snapshots) <==> OffencesOf(Unknowns(snapshots)) != []
    ensures ObservationsPresent(snapshots) ==>
      EvidenceOf(Unknowns(snapshots)) != [] && ValidEvalReceipt(EvalReceiptOf(snapshots))
  {
    UnknownsFacts(snapshots);
    var unknowns := Unknowns(snapshots);
    EvidenceEmptyIff(unknowns);
    OffencesEmptyIff(unknowns);
    if ObservationsPresent(snapshots) {
      var s :| s in snapshots && s.offences != [];
      assert s in unknowns;
      EvalReceiptIsValid(snapshots);
    }
  }

  lemma {:induction false} OffencesEmptyIff(s: seq<Snapshot>)
    ensures OffencesOf(s) == [] <==> forall x :: x in s ==> x.offences == []
  {
    if s != [] {
      OffencesEmptyIff(s[..|s| - 1]);
      assert s == s[..|s| - 1] + [s[|s| - 1]];
    }
  }

  /** What one recorded snapshot says about its scope. */
  ghost predicate CleanedScope(scope: Scope, s: Snapshot, seg: seq<Event>) {
    && Pursued(seg, ByPid(scope.identities))
    && SoundSnapshot(s) && SoundTargets(s.targets)
    && s.signalled == |SignalledPids(seg)|
    && (CleanupStatus(s) == Complete ==>
          && scope.coverage == CoverageComplete
          && NothingLeft(seg, scope.identities, scope.observed, scope.trackedPids, scope.trackedPgids))
  }

  lemma CleanedScopeFits(scope: Scope, s: Snapshot, merged: Snapshot, seg: seq<Event>)
    requires SoundScope(scope)
    requires Concluded(Some(s), ContextOf(scope.identities, scope.observed, scope.pidGroups),
                       Prior(scope.identities, scope.diagnostic, []), seg, scope.trackedPids, scope.trackedPgids)
    requires merged == if scope.offences != [] then s.(offences := Merge(scope.offences + s.offences)) else s
    ensures CleanedScope(scope, merged, seg)
  {
    var ctx := ContextOf(scope.identities, scope.observed, scope.pidGroups);
    var f := Scan(ctx, Prior(scope.identities, scope.diagnostic, []), seg);
    if scope.offences == [] {
      MergeFlattens([], f.offences);
      assert [] + f.offences == f.offences && [] + s.offences == s.offences;
      assert scope.offences + s.offences == s.offences;
    }
    WithEarlierIsSound(s, scope.identities, scope.coverage, scope.diagnostic, scope.offences, ctx, seg, merged);
    ByPidFacts(scope.identities);
    ObservedTargetsAreSound(s.targets, seg, ctx.ids);
    if CleanupStatus(merged) == Complete {
      CompleteIsSound(s, scope.identities, scope.observed, scope.pidGroups, scope.trackedPids, scope.trackedPgids,
                      scope.coverage, scope.diagnostic, [], seg);
    }
  }

  /** Whether a receipt file is put on disk. */
  predicate Persists(snapshots: seq<Snapshot>, hasPath: bool, written: bool) {
    hasPath && written && ObservationsPresent(snapshots) && WriteAggregate(snapshots, written).0.Some?
  }

  function Announced(snapshots: seq<Snapshot>, hasPath: bool, written: bool): Option<Evidence> {
    var present := ObservationsPresent(snapshots);
    if !hasPath then
      Some(Evidence(WriteFailed, false, Some(if present then ReceiptPathMissing else EvidenceUnavailable), None))
    else if present then WriteAggregate(snapshots, written).1
    else Some(UNAVAILABLE)
  }

  /** Evidence announces a receipt exactly when a valid one was put on disk; it is missing exactly
      when one was, and the first diagnostic in it is the target one. */
  lemma AnnouncedFits(snapshots: seq<Snapshot>, hasPath: bool, written: bool)
    requires AllSound(snapshots)
    ensures Persists(snapshots, hasPath, written) <==> hasPath && written && ObservationsPresent(snapshots)
    ensures Persists(snapshots, hasPath, written) ==> ValidEvalReceipt(EvalReceiptOf(snapshots))
    ensures var e := Announced(snapshots, hasPath, written);
      && (e.None? <==> Persists(snapshots, hasPath, written) && FirstWhy(snapshots).stage == TargetObservation)
      && (e.Some? ==> (e.value.sealed <==> Persists(snapshots, hasPath, written)))
      && (e.Some? ==> e.value.kind == if e.value.sealed then ObservationUnknownEvidence else WriteFailed)
  {
    PresentMeansAggregate(snapshots);
    if ObservationsPresent(snapshots) { EvalEvidenceBuildsIff(snapshots, written); }
  }

  /** The diagnostic that the evidence would carry: the first unknown snapshot's with observations. */
  function FirstWhy(snapshots: seq<Snapshot>): Diagnostic {
    if EvidenceOf(Unknowns(snapshots)) == [] then TARGET_UNKNOWN else EvidenceOf(Unknowns(snapshots))[0].why
  }

  // ---- the manager ----

  /** A started child; its group can be unreadable. */
  datatype Child = Child(pid: int, pgid: Option<int>)
  datatype Wait = Finished | DeadlinePassed | WaitBroken

  datatype RunResult = RunResult(created: nat, terminated: nat, remaining: Option<nat>, cleanup: CleanupState,
                                 timedOut: bool)

  /** A run counts its root even when no identity was captured. */
  function Created(scope: Scope): nat { if |scope.identities| > 1 then |scope.identities| else 1 }

  /** At least the root is counted, and every identity is. */
  lemma CreatedMeans(scope: Scope)
    ensures Created(scope) >= 1 && Created(scope) >= |scope.identities|
    ensures Created(scope) == 1 || Created(scope) == |scope.identities|
  {}

  /** What one capture of a freshly started child read: opening the admission, then its parts. */
  datatype Capture = Capture(opening: seq<Event>, parts: Parts, root: Option<Identity>)

  function ReadBy(capture: Option<Capture>): seq<Event> {
    if capture.Some? then capture.value.opening + capture.value.parts.Flat() else []
  }

  method CaptureTree(os: Os, pid: int, pgid: int) returns (scope: Option<Scope>, ghost capture: Capture)
    modifies os
    ensures os.trace == old(os.trace) + ReadBy(Some(capture)) && NoSignals(ReadBy(Some(capture)))
    ensures OpenedOn(capture.opening, pid, pgid, capture.root)
    ensures scope.Some? ==> CapturedScope(scope.value, pid, pgid, capture)
  {
    var admission, opening := OpenAdmission(os, pid, pgid);
    var captured, parts, seg := admission.CaptureScope(os);
    scope, capture := captured, Capture(opening, parts, admission.root);
    NoSignalsConcat(opening, seg);
    if scope.Some? { HistoryEither(scope.value, parts, admission.root, pid, pgid, !admission.closed); }
    TraceJoin(old(os.trace), opening, seg);
  }

  ghost predicate CaptureOf(child: Child, capture: Capture) {
    child.pgid.Some? && OpenedOn(capture.opening, child.pid, child.pgid.value, capture.root)
  }

  /** Sound, admitted by the capture, with the numbers, the diagnostic and the history of its scans and reads. */
  ghost predicate CapturedScope(scope: Scope, pid: int, pgid: int, capture: Capture) {
    && SoundScope(scope) && AdmittedAll(scope, capture.parts, capture.root)
    && ScopeFrom(scope, capture.parts, pid, pgid)
    && HistoryFrom(scope, capture.parts, capture.root, pid, pgid, false)
  }

  /** Whatever is signalled is an identity of the scope, and the capture admitted it. */
  ghost predicate SignalsAdmitted(cleanup: seq<Event>, scope: Scope, capture: Capture) {
    forall e :: e in cleanup && e.Signalled? ==>
      exists id :: id in scope.identities && id.pid == e.pid && RootOrAdmitted(id, capture.parts, capture.root)
  }

  lemma JustifiedAreAdmitted(cleanup: seq<Event>, scope: Scope, capture: Capture)
    requires SignalsJustified(cleanup, ByPid(scope.identities))
    requires AdmittedAll(scope, capture.parts, capture.root)
    ensures SignalsAdmitted(cleanup, scope, capture)
  {
    SignalledAreCaptured(cleanup, scope.identities);
  }

  function ScopeContext(scope: Scope): Context { ContextOf(scope.identities, scope.observed, scope.pidGroups) }

  /** What one run's cleanup did to its scope: no snapshot exactly when the wait broke before the
      cleanup, or when some read of the cleanup cannot be recorded. */
  ghost predicate Attended(scope: Scope, wait: Wait, snapshot: Option<Snapshot>, cleanup: seq<Event>) {
    && SignalsJustified(cleanup, ByPid(scope.identities))
    && (wait == WaitBroken ==> snapshot.None? && cleanup == [])
    && (wait != WaitBroken ==> (snapshot.None? <==> AnyUnrecordable(ScopeContext(scope), cleanup)))
    && (snapshot.Some? ==> CleanedScope(scope, snapshot.value, cleanup))
  }

  function AsList(snapshot: Option<Snapshot>): seq<Snapshot> { if snapshot.Some? then [snapshot.value] else [] }

  /** Receipts on disk are valid, no more of them than the set evidence and the finalisations that
      raised account for; sealed evidence belongs to an unknown verdict. */
  ghost predicate ReceiptsFit(receipts: seq<Sealed<EvalMaterial>>, raised: nat, evidence: Option<Evidence>,
                              snapshots: seq<Snapshot>)
  {
    && (evidence.Some? ==> evidence.value.kind in {WriteFailed, ObservationUnknownEvidence})
    && (forall r :: r in receipts ==> ValidEvalReceipt(r))
    && |receipts| <= raised + (if evidence.Some? && evidence.value.sealed then 1 else 0)
    && (evidence.Some? && evidence.value.sealed ==>
        receipts != [] && snapshots != [] && WorstState(snapshots) == Undetermined)
  }

  /** The receipts put on disk by one publication. */
  function Put(snapshots: seq<Snapshot>, hasPath: bool, written: bool): seq<Sealed<EvalMaterial>> {
    if Persists(snapshots, hasPath, written) then [EvalReceiptOf(snapshots)] else []
  }

  lemma PublishingKeeps(receipts: seq<Sealed<EvalMaterial>>, raised: nat, snapshots: seq<Snapshot>, hasPath: bool,
                        written: bool)
    requires AllSound(snapshots) && WorstState(snapshots) == Undetermined
      && ReceiptsFit(receipts, raised, None, snapshots)
    ensures var e := Announced(snapshots, hasPath, written);
      ReceiptsFit(receipts + Put(snapshots, hasPath, written), if e.None? then raised + 1 else raised, e, snapshots)
  {
    AnnouncedFits(snapshots, hasPath, written);
    var put := Put(snapshots, hasPath, written);
    assert forall r :: r in receipts + put ==> r in receipts || r in put;
  }

  lemma RecordingKeepsReceipts(receipts: seq<Sealed<EvalMaterial>>, raised: nat, evidence: Option<Evidence>,
                               snapshots: seq<Snapshot>, s: Snapshot)
    requires AllSound(snapshots) && SoundSnapshot(s) && ReceiptsFit(receipts, raised, evidence, snapshots)
    ensures ReceiptsFit(receipts, raised, evidence, snapshots + [s])
  {
    RecordingKeeps(snapshots, s);
  }

  class EvalProcessManager {
    const hasReceiptPath: bool
    var created: nat
    var terminated: nat
    var remaining: Option<nat>
    var timedOut: bool
    var processCleanup: CleanupState
    var evidence: Option<Evidence>
    var snapshots: seq<Snapshot>
    /** History: receipts put on disk, and finalisations that raised after doing so. */
    ghost var receipts: seq<Sealed<EvalMaterial>>
    ghost var raised: nat

    ghost predicate Valid()
      reads this
    {
      && AllSound(snapshots)
      && terminated == SumOfSignalled(snapshots)
      && created >= |snapshots|
      && (processCleanup == NotRequired ==> created == 0)
      && ReceiptsFit(receipts, raised, evidence, snapshots)
    }

    constructor (hasReceiptPath: bool)
      ensures Valid() && this.hasReceiptPath == hasReceiptPath
      ensures created == 0 && snapshots == [] && processCleanup == NotRequired && remaining == Some(0) && evidence.None?
    {
      this.hasReceiptPath := hasReceiptPath;
      created, terminated, remaining, timedOut, processCleanup := 0, 0, Some(0), false, NotRequired;
      evidence, snapshots, receipts, raised := None, [], [], 0;
    }

    /** The cleanup of one scope, with the observations of the capture merged in. */
    method CleanScope(os: Os, scope: Scope) returns (snapshot: Option<Snapshot>, ghost seg: seq<Event>)
      requires SoundScope(scope)
      modifies os
      ensures os.trace == old(os.trace) + seg
      ensures SignalsJustified(seg, ByPid(scope.identities))
      ensures snapshot.None? <==> AnyUnrecordable(ScopeContext(scope), seg)
      ensures snapshot.Some? ==> CleanedScope(scope, snapshot.value, seg)
    {
      var result;
      result, seg := CleanupBirthBound(os, scope.identities, scope.trackedPids, scope.trackedPgids, scope.pidGroups,
                                       scope.observed, scope.coverage, scope.diagnostic, []);
      snapshot := result;
      if result.None? { return; }
      if scope.offences != [] {
        var merged := MergeObservations(scope.offences + result.value.offences);
        snapshot := Some(result.value.(offences := merged));
      }
      CleanedScopeFits(scope, result.value, snapshot.value, seg);
    }

    /** One managed run. `child` is None when nothing could be started; `outputBroken` says whether
        reading the rest of the output, tried only after the deadline, raises anything but a timeout or
        an error of the operating system. No result stands for an exception. A run records a snapshot
        whenever its cleanup concludes, also when it raises over its output afterwards. */
    method Run(os: Os, child: Option<Child>, wait: Wait, outputBroken: bool)
      returns (result: Option<RunResult>, ghost scope: Option<Scope>, ghost capture: Option<Capture>,
               ghost cleanup: seq<Event>, ghost snapshot: Option<Snapshot>)
      requires Valid()
      modifies this`created, this`timedOut, this`terminated, this`snapshots, this`remaining, this`processCleanup, os
      ensures Valid()
      ensures os.trace == old(os.trace) + ReadBy(capture) + cleanup && NoSignals(ReadBy(capture))
      ensures child.None? ==> capture.None? && Untouched(old(Fields()))
      ensures child.None? || scope.None? ==> snapshot.None? && cleanup == []
      ensures capture.Some? ==> child.Some? && CaptureOf(child.value, capture.value)
      ensures scope.Some? ==> capture.Some? && child.value.pgid.Some?
      ensures scope.Some? ==> CapturedScope(scope.value, child.value.pid, child.value.pgid.value, capture.value)
      ensures scope.Some? ==>
        Attended(scope.value, wait, snapshot, cleanup) && SignalsAdmitted(cleanup, scope.value, capture.value)
      ensures snapshots == old(snapshots) + AsList(snapshot)
      ensures timedOut <==> old(timedOut) || (scope.Some? && wait == DeadlinePassed)
      ensures result.Some? <==> snapshot.Some? && !(wait == DeadlinePassed && outputBroken)
      ensures child.Some? && result.None? ==> processCleanup == Pending && remaining.None?
      ensures child.Some? ==> created == old(created) + (if scope.Some? then Created(scope.value) else 1)
      ensures result.Some? ==> Follows(result.value, snapshot.value, scope.value, wait)
    {
      result, scope, capture, cleanup, snapshot := None, None, None, [], None;
      if child.None? { return; }
      created, remaining, processCleanup := created + 1, None, Pending;
      if child.value.pgid.None? { return; }
      var captured, read := CaptureTree(os, child.value.pid, child.value.pgid.value);
      capture := Some(read);
      if captured.None? { return; }
      scope := captured;
      result, cleanup, snapshot := Attend(os, captured.value, wait, outputBroken);
      JustifiedAreAdmitted(cleanup, captured.value, read);
    }

    /** Wait for the child of a captured scope, clean the scope up, record the snapshot, read the rest
        of the output, conclude. */
    method Attend(os: Os, captured: Scope, wait: Wait, outputBroken: bool)
      returns (result: Option<RunResult>, ghost cleanup: seq<Event>, ghost snapshot: Option<Snapshot>)
      requires Valid() && SoundScope(captured) && processCleanup == Pending && remaining.None? && created > |snapshots|
      modifies this`created, this`timedOut, this`terminated, this`snapshots, this`remaining, this`processCleanup, os
      ensures Valid() && created == old(created) - 1 + Created(captured)
      ensures os.trace == old(os.trace) + cleanup
      ensures Attended(captured, wait, snapshot, cleanup)
      ensures snapshots == old(snapshots) + AsList(snapshot)
      ensures timedOut <==> old(timedOut) || wait == DeadlinePassed
      ensures result.Some? <==> snapshot.Some? && !(wait == DeadlinePassed && outputBroken)
      ensures result.None? ==> processCleanup == Pending && remaining.None?
      ensures result.Some? ==> Follows(result.value, snapshot.value, captured, wait)
    {
      result, cleanup, snapshot := None, [], None;
      WaitForChild(captured, wait);
      if wait == WaitBroken { return; }
      var s;
      s, cleanup := CleanAndRecord(os, captured, wait);
      snapshot := s;
      if s.None? { return; }
      if wait == DeadlinePassed && outputBroken { return; }
      var r := Conclude(s.value, captured, wait);
      result := Some(r);
    }

    method WaitForChild(captured: Scope, wait: Wait)
      requires Valid() && processCleanup == Pending && created > |snapshots|
      modifies this`created, this`timedOut
      ensures Valid() && created == old(created) - 1 + Created(captured) && created > |snapshots|
      ensures timedOut <==> old(timedOut) || wait == DeadlinePassed
    {
      created := created + (Created(captured) - 1);
      if wait == DeadlinePassed { timedOut := true; }
    }

    method Conclude(s: Snapshot, captured: Scope, wait: Wait) returns (r: RunResult)
      requires Valid() && processCleanup == Pending
      modifies this`remaining, this`processCleanup
      ensures Valid() && Follows(r, s, captured, wait)
    {
      remaining, processCleanup := RemainingProcesses(s), Judged(s);
      r := RunResult(Created(captured), s.signalled, remaining, processCleanup, wait == DeadlinePassed);
    }

    method CleanAndRecord(os: Os, captured: Scope, ghost wait: Wait)
      returns (snapshot: Option<Snapshot>, ghost cleanup: seq<Event>)
      requires wait != WaitBroken && Valid() && SoundScope(captured) && processCleanup != NotRequired
        && created > |snapshots|
      modifies this`snapshots, this`terminated, os
      ensures Valid() && os.trace == old(os.trace) + cleanup
      ensures Attended(captured, wait, snapshot, cleanup)
      ensures snapshots == old(snapshots) + AsList(snapshot)
    {
      snapshot, cleanup := CleanScope(os, captured);
      if snapshot.Some? { Record(snapshot.value); }
    }

    method Record(s: Snapshot)
      requires Valid() && SoundSnapshot(s) && processCleanup != NotRequired && created > |snapshots|
      modifies this`snapshots, this`terminated
      ensures Valid() && snapshots == old(snapshots) + [s]
    {
      RecordingKeeps(snapshots, s);
      RecordingKeepsReceipts(receipts, raised, evidence, snapshots, s);
      snapshots := snapshots + [s];
      terminated := terminated + s.signalled;
    }

    ghost function Fields(): (nat, nat, Option<nat>, bool, CleanupState)
      reads this
    {
      (created, terminated, remaining, timedOut, processCleanup)
    }

    ghost predicate Untouched(fields: (nat, nat, Option<nat>, bool, CleanupState))
      reads this
    {
      Fields() == fields
    }

    /** The result and the state of the manager follow the snapshot. */
    ghost predicate Follows(r: RunResult, s: Snapshot, scope: Scope, wait: Wait)
      reads this
    {
      && r == RunResult(Created(scope), s.signalled, RemainingProcesses(s), Judged(s), wait == DeadlinePassed)
      && remaining == r.remaining && processCleanup == r.cleanup
    }

    /** Folds the recorded snapshots and publishes evidence unless that was done before. False
        stands for an exception while the evidence record was built. */
    method Finalize(written: bool) returns (ok: bool)
      requires Valid()
      modifies this
      ensures Valid() && snapshots == old(snapshots) && terminated == old(terminated) && created == old(created)
      ensures old(processCleanup) == NotRequired && old(snapshots) == [] ==>
        ok && Untouched(old(Fields())) && evidence == old(evidence)
      ensures old(processCleanup) != NotRequired || old(snapshots) != [] ==>
        processCleanup == WorstState(snapshots) && remaining == RemainingOver(snapshots)
      ensures old(evidence).Some? || processCleanup != Undetermined ==>
        ok && evidence == old(evidence) && receipts == old(receipts)
      ensures old(evidence).None? && processCleanup == Undetermined ==>
        && evidence == Announced(snapshots, hasReceiptPath, written) && ok == evidence.Some?
        && receipts == old(receipts) + Put(snapshots, hasReceiptPath, written)
    {
      ok := true;
      if snapshots == [] && processCleanup == NotRequired { return; }
      remaining := RemainingOver(snapshots);
      processCleanup := WorstState(snapshots);
      ok := PublishEvidence(written);
    }

    method PublishEvidence(written: bool) returns (ok: bool)
      requires Valid() && processCleanup == WorstState(snapshots)
      modifies this`evidence, this`receipts, this`raised
      ensures Valid()
      ensures if old(evidence).Some? || processCleanup != Undetermined
        then ok && evidence == old(evidence) && receipts == old(receipts)
        else
          && evidence == Announced(snapshots, hasReceiptPath, written)
          && ok == evidence.Some?
          && receipts == old(receipts) + Put(snapshots, hasReceiptPath, written)
    {
      ok := true;
      if processCleanup != Undetermined || evidence.Some? { return; }
      PublishingKeeps(receipts, raised, snapshots, hasReceiptPath, written);
      evidence := Announced(snapshots, hasReceiptPath, written);
      ok := evidence.Some?;
      receipts := receipts + Put(snapshots, hasReceiptPath, written);
      if !ok { raised := raised + 1; }
    }
  }
}
