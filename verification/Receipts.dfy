/**
 Receipts of a finished cleanup: the authenticated one, the fail-closed diagnostic one and the
 aggregate of an evaluation. Each writer is proved against the validator that will read it back.
 */
module Receipts {
  import opened Base
  import opened Processes
  import OperatingSystem
  import opened Merging
  import opened Judging
  import opened Cleanup

  // ---- remaining counts and unknown reasons ----

  function Alive(targets: seq<Target>): nat {
    if targets == [] then 0
    else Alive(targets[..|targets| - 1]) + (if targets[|targets| - 1].outcome == StillAlive then 1 else 0)
  }

  function AliveGroups(targets: seq<Target>): set<int> {
    set t | t in targets && t.outcome == StillAlive :: t.pgid
  }

  function RemainingProcesses(s: Snapshot): Option<nat> {
    if CleanupStatus(s) == Unknown then None else Some(Alive(s.targets))
  }

  function RemainingGroups(s: Snapshot): Option<nat> {
    if CleanupStatus(s) == Unknown then None else Some(|AliveGroups(s.targets)|)
  }

  datatype UnknownReason =
    | PublicationDiscarded | WatcherStillRunning | WatcherDrainUnknown
    | TargetUnobserved | CoverageIsUnknown | CleanupStateUnknown
    | ReceiptPathMissing | ReceiptWriteFailed | EvidenceInconsistent | EvidenceUnavailable

  function ReasonOf(drain: Drain, coverage: Coverage, targetUnknown: bool): UnknownReason {
    if drain == Discarded then PublicationDiscarded
    else if drain == StillRunningWatcher then WatcherStillRunning
    else if drain == DrainUnknown then WatcherDrainUnknown
    else if targetUnknown then TargetUnobserved
    else if coverage == CoverageUnknown then CoverageIsUnknown
    else CleanupStateUnknown
  }

  predicate TargetsUnknown(s: Snapshot) { s.targetUnknown || AnyOutcome(s.targets, OutcomeUnknown) }

  predicate BadDrain(d: Drain) { d in {Discarded, StillRunningWatcher, DrainUnknown} }

  function ReasonOfSnapshot(s: Snapshot): UnknownReason { ReasonOf(s.drain, s.coverage, TargetsUnknown(s)) }

  /** Zero processes and zero groups come together, and there are never more groups than processes. */
  lemma {:induction false} GroupsAndProcesses(targets: seq<Target>)
    ensures Alive(targets) == 0 <==> !AnyOutcome(targets, StillAlive)
    ensures |AliveGroups(targets)| == 0 <==> Alive(targets) == 0
    ensures |AliveGroups(targets)| <= Alive(targets)
  {
    if targets != [] {
      var front, last := targets[..|targets| - 1], targets[|targets| - 1];
      assert targets == front + [last];
      GroupsAndProcesses(front);
      if last.outcome == StillAlive {
        assert last in targets;
        assert AliveGroups(targets) == AliveGroups(front) + {last.pgid};
        assert last.pgid in AliveGroups(targets);
      } else {
        assert AliveGroups(targets) == AliveGroups(front);
      }
    }
  }

  ghost function AliveAt(targets: seq<Target>): set<nat> {
    set i: nat | i < |targets| && targets[i].outcome == StillAlive
  }

  /** The process count is the number of targets that were last seen alive, each counted once. */
  lemma {:induction false} AliveMeans(targets: seq<Target>)
    ensures Alive(targets) == |AliveAt(targets)|
  {
    if targets != [] {
      AliveMeans(targets[..|targets| - 1]);
      AliveAtSnoc(targets[..|targets| - 1], targets[|targets| - 1]);
      assert targets == targets[..|targets| - 1] + [targets[|targets| - 1]];
    }
  }

  lemma AliveAtSnoc(targets: seq<Target>, t: Target)
    ensures |AliveAt(targets + [t])| == |AliveAt(targets)| + if t.outcome == StillAlive then 1 else 0
  {
    var more, n := targets + [t], |targets|;
    assert more[n] == t && n !in AliveAt(targets);
    forall i: nat | i < n ensures more[i] == targets[i] {}
    if t.outcome == StillAlive {
      assert AliveAt(more) == AliveAt(targets) + {n};
    } else {
      assert AliveAt(more) == AliveAt(targets);
    }
  }

  // ---- the authenticated receipt ----

  datatype IdentityMaterial = IdentityMaterial(
    command: string, rootPid: int, rootPgid: int, targetCount: int, targets: seq<Target>, drain: Drain)

  predicate ValidIdentityReceipt(r: Sealed<IdentityMaterial>) {
    var m := r.material;
    && m.rootPid > 0 && m.rootPgid > 0
    && m.targets != [] && m.targetCount == |m.targets|
    && (forall t :: t in m.targets ==> ValidTarget(t))
    && (forall i, j :: 0 <= i < j < |m.targets| ==> m.targets[i].pid != m.targets[j].pid)
    && !AnyOutcome(m.targets, OutcomeUnknown)
    && m.drain in {NotApplicable, Drained}
    && r.digest == Sha(m)
  }

  function IdentityReceiptOf(command: string, rootPid: int, rootPgid: int, s: Snapshot): Sealed<IdentityMaterial> {
    SealUp(IdentityMaterial(command, rootPid, rootPgid, |s.targets|, s.targets, s.drain))
  }

  /** The receipt's own verdict, derived from its targets alone. */
  function ReceiptStatus(r: Sealed<IdentityMaterial>): Status {
    if Alive(r.material.targets) != 0 then Failed else Complete
  }

  /** Targets as the cleanup makes them: valid, one per pid. */
  predicate SoundTargets(targets: seq<Target>) {
    && (forall t :: t in targets ==> ValidTarget(t))
    && (forall i, j :: 0 <= i < j < |targets| ==> targets[i].pid != targets[j].pid)
  }

  lemma IdentityReceiptIsValid(command: string, rootPid: int, rootPgid: int, s: Snapshot)
    requires rootPid > 0 && rootPgid > 0
    requires SoundTargets(s.targets) && s.targets != [] && CleanupStatus(s) != Unknown
    ensures var r := IdentityReceiptOf(command, rootPid, rootPgid, s);
      && ValidIdentityReceipt(r)
      && r.material == IdentityMaterial(command, rootPid, rootPgid, |s.targets|, s.targets, s.drain)
      && ReceiptStatus(r) == CleanupStatus(s)
      && Some(Alive(r.material.targets)) == RemainingProcesses(s)
      && Some(|AliveGroups(r.material.targets)|) == RemainingGroups(s)
      && (RemainingGroups(s) == Some(0) <==> RemainingProcesses(s) == Some(0))
  {
    GroupsAndProcesses(s.targets);
    assert !BadDrain(s.drain);
    assert s.drain.NotApplicable? || s.drain.Drained? || BadDrain(s.drain);
  }

  /** Targets observed by the cleanup of distinct identities are sound. */
  lemma ObservedTargetsAreSound(targets: seq<Target>, seg: seq<OperatingSystem.Event>, ids: map<int, Identity>)
    requires TargetsObserved(targets, seg, ids) && forall pid :: pid in ids ==> ids[pid].pid == pid
    ensures SoundTargets(targets) && |targets| == |ids|
  {
    var order := Sorted(ids.Keys);
    forall k | 0 <= k < |targets| ensures targets[k].pid == order[k] && ValidTarget(targets[k]) {
      assert TargetFrom(targets[k], seg, ids[order[k]], order[k]);
    }
  }

  // ---- the diagnostic receipt ----

  datatype EvidenceState = CurrentEvidence | LegacyCurrent | HistoricalEvidence | NoEvidence

  datatype UnknownMaterial = UnknownMaterial(
    command: string, rootPid: int, rootPgid: int, reason: UnknownReason, drain: Drain,
    coverage: Coverage, why: Option<Diagnostic>, targetCount: int,
    remaining: Option<int>, remainingGroups: Option<int>,
    offences: seq<Offence>, evidence: EvidenceState)

  /** The validator for a receipt that carries every current field. */
  predicate ValidUnknownReceipt(r: Sealed<UnknownMaterial>) {
    var m := r.material;
    && m.rootPid > 0 && m.rootPgid > 0 && m.targetCount >= 0
    && m.reason == ReasonOf(m.drain, m.coverage, m.reason == TargetUnobserved)
    && DiagnosticFits(m.coverage, m.why)
    && m.remaining.None? && m.remainingGroups.None?
    && AllValid(m.offences)
    && (m.offences != [] ==> m.coverage == CoverageUnknown)
    && (if m.evidence == CurrentEvidence then m.offences != [] else m.evidence == NoEvidence && m.offences == [])
    && (m.why.Some? && m.why.value.stage == GroupMember ==> m.offences != [])
    && (m.evidence == CurrentEvidence ==> Witnessed(m.why, m.offences))
    && r.digest == Sha(m)
  }

  function UnknownReceiptOf(command: string, rootPid: int, rootPgid: int, s: Snapshot): Sealed<UnknownMaterial> {
    SealUp(UnknownMaterial(command, rootPid, rootPgid, ReasonOfSnapshot(s), s.drain, s.coverage, s.why, |s.targets|,
                           None, None, s.offences, if s.offences != [] then CurrentEvidence else NoEvidence))
  }

  /** What cleanup and merging guarantee about every terminal snapshot. */
  ghost predicate SoundSnapshot(s: Snapshot) {
    SnapshotAccepted(s) && Witnessed(s.why, s.offences) && AllValid(s.offences)
  }

  /** Every diagnostic receipt the writer builds passes the validator: its reason recomputes, its
      pair is allowed, and a group-member pair has its witness. */
  lemma UnknownReceiptIsValid(command: string, rootPid: int, rootPgid: int, s: Snapshot)
    requires rootPid > 0 && rootPgid > 0 && SoundSnapshot(s) && CleanupStatus(s) == Unknown
    ensures var r := UnknownReceiptOf(command, rootPid, rootPgid, s);
      && ValidUnknownReceipt(r)
      && r.material.command == command && r.material.rootPid == rootPid && r.material.rootPgid == rootPgid
      && r.material.drain == s.drain && r.material.coverage == s.coverage && r.material.why == s.why
      && r.material.targetCount == |s.targets| && r.material.offences == s.offences
  {
    if s.why.Some? && s.why.value.stage == GroupMember {
      var o :| o in s.offences && o.state in WitnessStates(s.why.value.subreason);
    }
  }

  /** Adding the observations collected before the cleanup, none of which the cleanup was given,
      keeps the snapshot acceptable and its diagnostic witnessed. */
  lemma WithEarlierIsSound(s: Snapshot, identities: seq<Identity>, coverage: Coverage, why: Option<Diagnostic>,
                           offences: seq<Offence>, ctx: Context, seg: seq<OperatingSystem.Event>, terminal: Snapshot)
    requires DistinctPids(identities) && DiagnosticFits(coverage, why) && Witnessed(why, offences) && AllValid(offences)
    requires offences != [] ==> coverage == CoverageUnknown
    requires SnapshotAccepted(s) && Faithful(s, Scan(ctx, Prior(identities, why, []), seg), seg)
    requires terminal == s.(drain := terminal.drain, offences := Merge(offences + s.offences))
    ensures SoundSnapshot(terminal)
  {
    var prior := Prior(identities, why, []);
    ByPidFacts(identities);
    var found := Scan(ctx, NOTHING, seg);
    ScanFrom(ctx, prior, seg);
    FindingsAreWitnessed(ctx, seg);
    assert [] + found.offences == found.offences;
    MergeKeepsValidity(found.offences);
    MergeKeepsWitness(found.why, found.offences);
    var all := offences + s.offences;
    assert forall o :: o in offences || o in s.offences ==> o in all;
    assert Witnessed(s.why, all);
    MergeKeepsWitness(s.why, all);
    MergeKeepsValidity(all);
  }

  // ---- evidence handed to the caller ----

  datatype EvidenceKind = Authenticated | NoTargetObserved | ObservationUnknownEvidence | WriteFailed

  datatype Evidence = Evidence(kind: EvidenceKind, sealed: bool, reason: Option<UnknownReason>, why: Option<Diagnostic>)

  const TARGET_UNKNOWN := Diagnostic(TargetObservation, ObservationUnknown)

  /** The consistency check of the evidence record; construction raises when it fails. */
  predicate Consistent(e: Evidence) {
    && (e.why.Some? ==> AllowedPair(e.why.value))
    && (e.kind == ObservationUnknownEvidence ==>
          && (e.reason == Some(CoverageIsUnknown) ==> e.why.Some? && e.why.value.stage != TargetObservation)
          && (e.reason == Some(TargetUnobserved) ==> e.why == Some(TARGET_UNKNOWN)))
    && match e.kind
       case Authenticated => e.sealed && e.reason.None? && e.why.None?
       case NoTargetObserved => !e.sealed && e.reason.None? && e.why.None?
       case ObservationUnknownEvidence =>
         e.sealed && e.reason.Some? && e.reason.value in
           {PublicationDiscarded, WatcherStillRunning, WatcherDrainUnknown, CoverageIsUnknown, TargetUnobserved,
            CleanupStateUnknown}
       case WriteFailed =>
         !e.sealed && e.why.None? && e.reason.Some? && e.reason.value in
           {ReceiptPathMissing, ReceiptWriteFailed, EvidenceInconsistent, EvidenceUnavailable}
  }

  function UnknownEvidence(s: Snapshot): Evidence {
    Evidence(ObservationUnknownEvidence, true, Some(ReasonOfSnapshot(s)), s.why)
  }

  /** The first diagnostic wins, but this evidence wants the target diagnostic exactly when a target
      is unknown: with a settled watcher, evidence can be built if and only if the two coincide. */
  lemma UnknownEvidenceBuildsIff(s: Snapshot)
    requires SoundSnapshot(s) && CleanupStatus(s) == Unknown
    ensures Consistent(UnknownEvidence(s)) <==>
      BadDrain(s.drain) || (TargetsUnknown(s) <==> s.why == Some(TARGET_UNKNOWN))
  {}

  /** What the command writer returns; None stands for an exception. `written` says whether the
      file could be written. */
  function CommandEvidence(s: Snapshot, hasPath: bool, written: bool): Option<Evidence> {
    var e :=
      if !hasPath then
        if CleanupStatus(s) == Unknown then Evidence(WriteFailed, false, Some(ReceiptPathMissing), None)
        else Evidence(NoTargetObserved, false, None, None)
      else if CleanupStatus(s) == Unknown then
        if written then UnknownEvidence(s) else Evidence(WriteFailed, false, Some(ReceiptWriteFailed), None)
      else if s.targets == [] then Evidence(NoTargetObserved, false, None, None)
      else if written then Evidence(Authenticated, true, None, None)
      else Evidence(WriteFailed, false, Some(ReceiptWriteFailed), None);
    if Consistent(e) then Some(e) else None
  }

  /** What each kind of evidence says, and when it is given. */
  predicate EvidenceOfCommand(e: Evidence, s: Snapshot, hasPath: bool, written: bool) {
    var unknown := CleanupStatus(s) == Unknown;
    && (e.kind == Authenticated <==> hasPath && written && !unknown && s.targets != [])
    && (e.kind == NoTargetObserved <==> !unknown && (!hasPath || s.targets == []))
    && (e.kind == ObservationUnknownEvidence <==> hasPath && written && unknown)
    && (e.kind == WriteFailed <==> if hasPath then !written && (unknown || s.targets != []) else unknown)
    && (e.sealed <==> e.kind == Authenticated || e.kind == ObservationUnknownEvidence)
    && (e.kind == WriteFailed ==> e.reason == Some(if hasPath then ReceiptWriteFailed else ReceiptPathMissing))
    && (e.kind == ObservationUnknownEvidence ==> e.reason == Some(ReasonOfSnapshot(s)) && e.why == s.why)
  }

  /** Evidence never claims more than the snapshot: authenticated or target-free evidence means the
      cleanup state was known, and an exception means it was not. */
  lemma CommandEvidenceIsHonest(s: Snapshot, hasPath: bool, written: bool)
    requires SoundSnapshot(s)
    ensures var e := CommandEvidence(s, hasPath, written);
      && (e.None? ==> CleanupStatus(s) == Unknown && hasPath && written)
      && (e.Some? ==> EvidenceOfCommand(e.value, s, hasPath, written))
  {}
}
