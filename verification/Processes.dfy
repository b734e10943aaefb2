/**
 Process observations, the private "offending observation" records that can only keep a cleanup
 unknown, and the fixed vocabulary of coverage diagnostics.
 */
module Processes {
  import opened Base

  // ---- digests and observations ----

  /** SHA-256 as an injective constructor of what was hashed. */
  datatype Digest = TextSha(text: string) | OpaqueProcessSha(birth: string)

  datatype ReadState = Running | Zombie | Unreadable

  /** The safe process identity: a category and an identity hash exclude each other by type. */
  datatype ProcessTag = Untagged | ProcessObserver | IdentitySha(sha: Digest)

  datatype Observation = Observation(
    pid: int, pgid: int, birth: string, state: ReadState, ppid: Option<int>, tag: ProcessTag)

  datatype Identity = Identity(pid: int, pgid: int, birth: string, initial: ReadState)

  /** What a single-pid read promises whatever the process table does: the answer is about the pid
      asked for, a readable row carries a non-empty birth, and an unreadable one carries nothing but
      the pid, which stands in for its group. */
  predicate HonestRead(pid: int, obs: Option<Observation>) {
    obs.Some? ==>
      if obs.value.state == Unreadable then obs.value == Observation(pid, pid, "", Unreadable, None, Untagged)
      else obs.value.pid == pid && obs.value.birth != ""
  }

  predicate Readable(obs: Option<Observation>) {
    obs.Some? && obs.value.state != Unreadable
  }

  predicate RunsAs(obs: Option<Observation>, id: Identity) {
    obs.Some? && obs.value.state == Running && obs.value.birth == id.birth
  }

  function IdentityOf(o: Observation): Identity {
    Identity(o.pid, o.pgid, o.birth, o.state)
  }

  // ---- coverage diagnostics ----

  datatype Coverage = CoverageComplete | CoverageUnknown

  datatype Stage =
    | FirstSnapshot | SecondSnapshot | WatcherCapture | PostExitSnapshot | FinalSnapshot
    | GroupTableStage | GroupMember | TargetObservation

  datatype Subreason =
    | SnapshotFailure | CaptureFailure | TableIncomplete
    | UncapturedMember | ChangedIdentityOrGroup | ObservationUnknown

  datatype Diagnostic = Diagnostic(stage: Stage, subreason: Subreason)

  predicate AllowedPair(d: Diagnostic) {
    match d.stage
    case FirstSnapshot | SecondSnapshot | PostExitSnapshot | FinalSnapshot => d.subreason == SnapshotFailure
    case WatcherCapture => d.subreason == CaptureFailure
    case GroupTableStage => d.subreason == TableIncomplete
    case GroupMember =>
      d.subreason in {UncapturedMember, ChangedIdentityOrGroup, ObservationUnknown}
    case TargetObservation => d.subreason == ObservationUnknown
  }

  /** Unknown coverage carries exactly one allowed pair and complete coverage carries none. */
  predicate DiagnosticFits(coverage: Coverage, d: Option<Diagnostic>) {
    (coverage == CoverageUnknown <==> d.Some?) && (d.Some? ==> AllowedPair(d.value))
  }

  // ---- offending observations ----

  datatype Source =
    | FromFirstSnapshot | FromSecondSnapshot | FromPreSignalScan | FromPostSignalRescan | FromHistory

  datatype OffenceState =
    | SeenRunning | SeenZombie | SeenAbsent | SeenUnknown | IdentityChanged | GroupChanged

  datatype Phase = AdmissionOpen | AdmissionClosed

  datatype Offence = Offence(
    pid: int, pgid: int, expectedPgid: Option<int>, ppid: Option<int>,
    birthSha: Option<Digest>, expectedBirthSha: Option<Digest>,
    source: Source, state: OffenceState, phase: Phase, count: Option<int>, tag: ProcessTag)

  /** The record's own validator, for records that carry the correlation fields. */
  predicate ValidOffence(o: Offence) {
    && o.pid > 0 && o.pgid > 0
    && (o.ppid.Some? ==> o.ppid.value >= 0)
    && o.expectedPgid.Some? && o.expectedPgid.value > 0
    && o.count.Some? && o.count.value >= 1
    && (o.state !in {SeenAbsent, SeenUnknown} ==> o.birthSha.Some? && o.tag != Untagged)
    && (o.state == GroupChanged ==> o.expectedPgid.value != o.pgid)
    && (o.state == IdentityChanged ==>
          && o.expectedBirthSha.Some? && o.birthSha.Some? && o.expectedBirthSha != o.birthSha
          && o.expectedPgid.value == o.pgid)
  }

  function BirthSha(birth: string): Option<Digest> {
    if birth == "" then None else Some(TextSha(birth))
  }

  function StateSeen(s: ReadState): OffenceState {
    match s case Running => SeenRunning case Zombie => SeenZombie case Unreadable => SeenUnknown
  }

  function DraftOffence(pid: int, expectedPgid: int, obs: Option<Observation>, source: Source,
                        phase: Phase, state: Option<OffenceState>, expectedBirth: Option<string>): Offence
  {
    var expectedSha := if expectedBirth.Some? then BirthSha(expectedBirth.value) else None;
    match obs
    case None =>
      Offence(pid, expectedPgid, Some(expectedPgid), None, None, expectedSha, source,
              if state.Some? then state.value else SeenAbsent, phase, Some(1), Untagged)
    case Some(o) =>
      Offence(pid, o.pgid, Some(expectedPgid), o.ppid, BirthSha(o.birth), expectedSha, source,
              if state.Some? then state.value else StateSeen(o.state), phase, Some(1),
              if o.tag == Untagged && o.birth != "" then IdentitySha(OpaqueProcessSha(o.birth)) else o.tag)
  }

  /** Building an offending observation is partial: None stands for the validation error. */
  function MakeOffence(pid: int, expectedPgid: int, obs: Option<Observation>, source: Source,
                       phase: Phase, state: Option<OffenceState>, expectedBirth: Option<string>)
    : (r: Option<Offence>)
    ensures r.Some? ==> ValidOffence(r.value) && r.value.count == Some(1)
    ensures r.Some? ==> r.value.pid == pid && r.value.expectedPgid == Some(expectedPgid) && r.value.source == source
    ensures r.Some? ==> r.value.pgid == if obs.Some? then obs.value.pgid else expectedPgid
    ensures r.Some? ==> r.value.birthSha == if obs.Some? then BirthSha(obs.value.birth) else None
    ensures r.Some? && state.Some? ==> r.value.state == state.value
    ensures r.Some? && state.None? && obs.Some? ==> r.value.state == StateSeen(obs.value.state)
  {
    var o := DraftOffence(pid, expectedPgid, obs, source, phase, state, expectedBirth);
    if ValidOffence(o) then Some(o) else None
  }

  /** Something in the read or in the numbers does not fit the fields of a record. */
  predicate Unfit(pid: int, expectedPgid: int, obs: Option<Observation>) {
    || pid <= 0 || expectedPgid <= 0
    || (obs.Some? && (obs.value.pgid <= 0 || (obs.value.ppid.Some? && obs.value.ppid.value < 0)))
    || (Readable(obs) && obs.value.birth == "")
  }

  lemma AbsentFails(pid: int, expected: int, source: Source, phase: Phase, eb: Option<string>)
    ensures MakeOffence(pid, expected, None, source, phase, Some(SeenAbsent), eb).None? <==> Unfit(pid, expected, None)
  {}

  lemma UnreadableFails(pid: int, expected: int, obs: Option<Observation>, source: Source, phase: Phase,
                        eb: Option<string>)
    requires obs.Some? && obs.value.state == Unreadable
    ensures MakeOffence(pid, expected, obs, source, phase, Some(SeenUnknown), eb).None? <==> Unfit(pid, expected, obs)
  {}

  lemma MovedFails(pid: int, expected: int, obs: Option<Observation>, source: Source, phase: Phase, eb: Option<string>)
    requires Readable(obs)
    ensures MakeOffence(pid, expected, obs, source, phase, Some(GroupChanged), eb).None? <==>
      Unfit(pid, expected, obs) || obs.value.pgid == expected
  {}

  lemma ReplacedFails(pid: int, expected: int, obs: Option<Observation>, source: Source, phase: Phase, birth: string)
    requires Readable(obs)
    ensures MakeOffence(pid, expected, obs, source, phase, Some(IdentityChanged), Some(birth)).None? <==>
      Unfit(pid, expected, obs) || obs.value.pgid != expected || birth == "" || obs.value.birth == birth
  {}

  lemma PlainFails(pid: int, expected: int, obs: Option<Observation>, source: Source, phase: Phase, eb: Option<string>)
    requires Readable(obs)
    ensures MakeOffence(pid, expected, obs, source, phase, None, eb).None? <==> Unfit(pid, expected, obs)
  {}

  /** The observation states that can back a group-member diagnostic. */
  function WitnessStates(s: Subreason): set<OffenceState> {
    match s
    case UncapturedMember => {SeenRunning, SeenZombie, SeenAbsent}
    case ChangedIdentityOrGroup => {IdentityChanged, GroupChanged}
    case ObservationUnknown => {SeenUnknown}
    case _ => {}
  }

  /** A group-member diagnostic always has a witness among the offending observations. */
  predicate Witnessed(d: Option<Diagnostic>, offences: seq<Offence>) {
    d.Some? && d.value.stage == GroupMember ==>
      exists o :: o in offences && o.state in WitnessStates(d.value.subreason)
  }

  // ---- scopes ----

  /** One captured child tree. The tracked tuples are sorted duplicates-free tuples: sets here. */
  datatype Scope = Scope(
    identities: seq<Identity>, trackedPids: set<int>, trackedPgids: set<int>,
    coverage: Coverage, pidGroups: set<(int, int)>, observed: seq<Identity>,
    diagnostic: Option<Diagnostic>, offences: seq<Offence>)

  /** The checks a scope runs on itself when it is built. */
  ghost predicate ScopeAccepted(s: Scope) {
    && DiagnosticFits(s.coverage, s.diagnostic)
    && (s.offences != [] ==> s.coverage == CoverageUnknown)
    && (forall pid, g :: (pid, g) in s.pidGroups ==> pid in s.trackedPids && g in s.trackedPgids)
    && (forall id :: id in s.observed ==> id.pid in s.trackedPids && id.pgid in s.trackedPgids)
  }

  predicate DistinctPids(ids: seq<Identity>) {
    forall i, j :: 0 <= i < j < |ids| ==> ids[i].pid != ids[j].pid
  }

  predicate AllValid(offences: seq<Offence>) {
    forall o :: o in offences ==> ValidOffence(o)
  }

  /** What every scope handed to publication satisfies. */
  ghost predicate SoundScope(s: Scope) {
    && ScopeAccepted(s)
    && DistinctPids(s.identities)
    && Witnessed(s.diagnostic, s.offences)
    && AllValid(s.offences)
  }
}
