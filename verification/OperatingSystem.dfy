/**
 The operating system as an adversary: every read may answer differently from the one before, and
 pids and groups may be reused at any time. A ghost trace records what was read and signalled.
 */
module OperatingSystem {
  import opened Base
  import opened Processes
  import opened ProcessTree

  datatype Sig = Term | Kill

  /** The place in the program that performs a read. */
  datatype Site =
    | OpenRoot | RootCheck | FirstPass | SecondExtra | SecondPass
    | GroupScan(source: Source, pgid: int) | LeaderProbe(source: Source, pgid: int)
    | Selection(sig: Sig) | SignalTarget(sig: Sig) | SignalLeader(sig: Sig)
    | TargetVerdict | HistoryCheck

  datatype PollAnswer = StillRunning | Exited(code: int) | PollFailed

  datatype Event =
    | Read(site: Site, pid: int, obs: Option<Observation>)
    | GroupTable(source: Source, pgid: int, members: set<int>, complete: bool)
    | IdentityTable(rows: seq<Row>, complete: bool)
    | TableFailed
    | Polled(answer: PollAnswer)
    | Signalled(pid: int, sig: Sig)

  class Os {
    ghost var trace: seq<Event>

    method ReadProcess(site: Site, pid: int) returns (obs: Option<Observation>)
      modifies this
      ensures trace == old(trace) + [Read(site, pid, obs)]
      ensures HonestRead(pid, obs)
    {
      obs := *;
      if !HonestRead(pid, obs) { obs := None; }
      trace := trace + [Read(site, pid, obs)];
    }

    method ReadGroupTable(source: Source, pgid: int) returns (members: set<int>, complete: bool)
      modifies this
      ensures trace == old(trace) + [GroupTable(source, pgid, members, complete)]
    {
      members, complete := *, *;
      trace := trace + [GroupTable(source, pgid, members, complete)];
    }

    /** None stands for an exception while the table was read. */
    method ReadIdentityTable() returns (answer: Option<(seq<Row>, bool)>)
      modifies this
      ensures trace
        == old(trace) + [if answer.Some? then IdentityTable(answer.value.0, answer.value.1) else TableFailed]
    {
      answer := *;
      trace := trace + [if answer.Some? then IdentityTable(answer.value.0, answer.value.1) else TableFailed];
    }

    method Poll() returns (answer: PollAnswer)
      modifies this
      ensures trace == old(trace) + [Polled(answer)]
    {
      answer := *;
      trace := trace + [Polled(answer)];
    }

    method Signal(pid: int, sig: Sig)
      modifies this
      ensures trace == old(trace) + [Signalled(pid, sig)]
    {
      trace := trace + [Signalled(pid, sig)];
    }
  }

  // ---- reading a trace ----

  lemma TraceConcat(start: seq<Event>, a: seq<Event>, b: seq<Event>, c: seq<Event>)
    ensures start + a + b + c == start + (a + b + c)
  {}

  lemma TraceJoin(start: seq<Event>, a: seq<Event>, b: seq<Event>)
    ensures start + a + b == start + (a + b)
  {}

  /** The last read of one pid. */
  ghost function LastRead(seg: seq<Event>, pid: int): Option<Event> {
    if seg == [] then None
    else if seg[|seg| - 1].Read? && seg[|seg| - 1].pid == pid then Some(seg[|seg| - 1])
    else LastRead(seg[..|seg| - 1], pid)
  }

  lemma LastReadSnoc(seg: seq<Event>, e: Event, pid: int)
    ensures LastRead(seg + [e], pid) == if e.Read? && e.pid == pid then Some(e) else LastRead(seg, pid)
  {
    assert (seg + [e])[..|seg|] == seg;
  }

  lemma {:induction false} LastReadConcat(a: seq<Event>, b: seq<Event>, pid: int)
    ensures LastRead(a + b, pid) == Or(LastRead(b, pid), LastRead(a, pid))
  {
    if b == [] {
      assert a + b == a;
    } else {
      assert (a + b)[..|a + b| - 1] == a + b[..|b| - 1];
      LastReadConcat(a, b[..|b| - 1], pid);
    }
  }

  lemma {:induction false} LastReadIsEvent(seg: seq<Event>, pid: int)
    ensures LastRead(seg, pid).Some? ==>
      LastRead(seg, pid).value in seg && LastRead(seg, pid).value.Read? && LastRead(seg, pid).value.pid == pid
    ensures LastRead(seg, pid).None? ==> forall e :: e in seg && e.Read? ==> e.pid != pid
  {
    if seg != [] {
      LastReadIsEvent(seg[..|seg| - 1], pid);
      assert seg == seg[..|seg| - 1] + [seg[|seg| - 1]];
    }
  }

  /** The captured leader of the group is gone, or still holds its birth and group. */
  predicate LeaderHolds(obs: Option<Observation>, leader: Identity, pgid: int) {
    obs.Some? ==> obs.value.state != Unreadable && obs.value.pgid == pgid && obs.value.birth == leader.birth
  }

  /** A signal is justified when the read just before it shows the captured birth running, and,
      for a process that does not lead its group, the captured leader was read in between as gone
      or as still holding its birth and group. */
  predicate JustifiedAt(seg: seq<Event>, i: nat, ids: map<int, Identity>)
    requires i < |seg| && seg[i].Signalled?
  {
    var pid := seg[i].pid;
    && pid in ids
    && var id := ids[pid];
    if id.pid == id.pgid then
      && i >= 1
      && seg[i - 1].Read? && seg[i - 1].pid == pid && RunsAs(seg[i - 1].obs, id)
    else
      && i >= 2 && id.pgid in ids
      && seg[i - 2].Read? && seg[i - 2].pid == pid && RunsAs(seg[i - 2].obs, id)
      && seg[i - 1].Read? && seg[i - 1].pid == id.pgid
      && LeaderHolds(seg[i - 1].obs, ids[id.pgid], id.pgid)
  }

  ghost predicate SignalsJustified(seg: seq<Event>, ids: map<int, Identity>) {
    forall i: nat :: i < |seg| && seg[i].Signalled? ==> JustifiedAt(seg, i, ids)
  }

  /** The signalling phase that an event belongs to, if any. */
  function PhaseOf(e: Event): Option<Sig> {
    match e
    case Signalled(_, sig) => Some(sig)
    case Read(Selection(sig), _, _) => Some(sig)
    case Read(SignalTarget(sig), _, _) => Some(sig)
    case Read(SignalLeader(sig), _, _) => Some(sig)
    case _ => None
  }

  function ScanStage(source: Source): nat { if source == FromPreSignalScan then 0 else 3 }

  /** The stage of a cleanup that an event belongs to: the first scan, the two signalling phases, the
      rescan, the terminal views, the history. */
  function StageOf(e: Event): nat {
    match e
    case GroupTable(source, _, _, _) => ScanStage(source)
    case Read(GroupScan(source, _), _, _) => ScanStage(source)
    case Read(LeaderProbe(source, _), _, _) => ScanStage(source)
    case Read(TargetVerdict, _, _) => 4
    case Read(HistoryCheck, _, _) => 5
    case _ => if PhaseOf(e) == Some(Term) then 1 else if PhaseOf(e) == Some(Kill) then 2 else 6
  }

  lemma PhaseHasStage(e: Event)
    ensures PhaseOf(e) == Some(Term) <==> StageOf(e) == 1
    ensures PhaseOf(e) == Some(Kill) <==> StageOf(e) == 2
    ensures PhaseOf(e).Some? <==> StageOf(e) == 1 || StageOf(e) == 2
  {
    if PhaseOf(e).Some? { assert PhaseOf(e).value == Term || PhaseOf(e).value == Kill; }
  }

  predicate AtStage(seg: seq<Event>, stage: nat) { forall e :: e in seg ==> StageOf(e) == stage }

  predicate Staged(seg: seq<Event>, low: nat, high: nat) {
    && (forall e :: e in seg ==> low <= StageOf(e) <= high)
    && forall i, j :: 0 <= i < j < |seg| ==> StageOf(seg[i]) <= StageOf(seg[j])
  }

  lemma AtStageConcat(a: seq<Event>, b: seq<Event>, stage: nat)
    requires AtStage(a, stage) && AtStage(b, stage)
    ensures AtStage(a + b, stage)
  {}

  lemma AtStageIsStaged(seg: seq<Event>, stage: nat)
    requires AtStage(seg, stage)
    ensures Staged(seg, stage, stage)
    ensures stage != 1 && stage != 2 ==> Passive(seg)
  {
    forall e | e in seg ensures PhaseOf(e).Some? ==> stage == 1 || stage == 2 { PhaseHasStage(e); }
    assert forall i :: 0 <= i < |seg| ==> seg[i] in seg;
  }

  lemma StagedConcat(a: seq<Event>, b: seq<Event>, low: nat, mid: nat, next: nat, high: nat)
    requires Staged(a, low, mid) && Staged(b, next, high) && low <= mid <= next <= high
    ensures Staged(a + b, low, high)
  {
    forall i, j | 0 <= i < j < |a + b| ensures StageOf((a + b)[i]) <= StageOf((a + b)[j]) {
      if j < |a| {
        assert StageOf(a[i]) <= StageOf(a[j]);
      } else if i < |a| {
        assert a[i] in a && b[j - |a|] in b;
      } else {
        assert StageOf(b[i - |a|]) <= StageOf(b[j - |a|]);
      }
    }
  }

  /** Nothing is signalled here, nor is anything read in order to signal it. */
  predicate Passive(seg: seq<Event>) { forall e :: e in seg ==> PhaseOf(e).None? }

  predicate NoSignals(seg: seq<Event>) { forall e :: e in seg ==> !e.Signalled? }

  lemma NoSignalsConcat(a: seq<Event>, b: seq<Event>)
    requires NoSignals(a) && NoSignals(b)
    ensures NoSignals(a + b)
  {}

  lemma JustifiedConcat(a: seq<Event>, b: seq<Event>, ids: map<int, Identity>)
    requires SignalsJustified(a, ids) && SignalsJustified(b, ids)
    ensures SignalsJustified(a + b, ids)
  {
    forall i: nat | i < |a + b| && (a + b)[i].Signalled? ensures JustifiedAt(a + b, i, ids) {
      if i < |a| {
        assert JustifiedAt(a, i, ids);
      } else {
        assert JustifiedAt(b, i - |a|, ids);
      }
    }
  }

  /** The pids that were sent a signal. */
  ghost function SignalledPids(seg: seq<Event>): set<int> {
    set e | e in seg && e.Signalled? :: e.pid
  }
}
