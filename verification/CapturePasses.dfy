/**
 The two read passes of one capture: every process of the first scan is read once after it and
 once more after the second scan, and only agreement confirms it.
 */
module CapturePasses {
  import opened Base
  import opened Processes
  import opened ProcessTree
  import opened OperatingSystem
  import opened Judging
  import opened GroupScans

  type ObservedKey = (int, int, string)

  function KeyOf(id: Identity): ObservedKey { (id.pid, id.pgid, id.birth) }

  // ---- verdicts of the two capture passes ----

  function JudgeFirst(pid: int, obs: Option<Observation>): Verdict {
    if obs.Some? && obs.value.state == Unreadable then
      Report(ObservationUnknown,
             MakeOffence(pid, obs.value.pgid, obs, FromFirstSnapshot, AdmissionOpen, Some(SeenUnknown),
                         Some(obs.value.birth)))
    else Pass
  }

  /** The second look at a process: it must be the same process, and its group must be in the
      second scan. */
  predicate Confirms(o: Observation, again: Option<Observation>, groups: set<int>) {
    Readable(again) && again.value.birth == o.birth && again.value.pgid == o.pgid && o.pgid in groups
  }

  function JudgeSecond(o: Observation, again: Option<Observation>, groups: set<int>): Verdict {
    if again.None? then Pass
    else if again.value.state == Unreadable then
      Report(ObservationUnknown,
             MakeOffence(o.pid, o.pgid, again, FromSecondSnapshot, AdmissionOpen, Some(SeenUnknown), Some(o.birth)))
    else if !Confirms(o, again, groups) then
      Report(ChangedIdentityOrGroup,
             MakeOffence(o.pid, o.pgid, again, FromSecondSnapshot, AdmissionOpen,
                         Some(if again.value.pgid != o.pgid then GroupChanged else IdentityChanged), Some(o.birth)))
    else Pass
  }

  /** An unreadable process whose numbers do not fit a record. */
  predicate UnrecordableFirst(pid: int, obs: Option<Observation>) {
    obs.Some? && obs.value.state == Unreadable && Unfit(pid, obs.value.pgid, obs)
  }

  lemma FirstReadRejected(pid: int, obs: Option<Observation>)
    ensures JudgeFirst(pid, obs) == Reject <==> UnrecordableFirst(pid, obs)
  {
    if obs.Some? && obs.value.state == Unreadable {
      UnreadableFails(pid, obs.value.pgid, obs, FromFirstSnapshot, AdmissionOpen, Some(obs.value.birth));
    }
  }

  /** An unreadable answer carries its own pid as its group, so only a pid that is none fails. */
  lemma HonestFirstReadRejected(pid: int, obs: Option<Observation>)
    requires HonestRead(pid, obs)
    ensures JudgeFirst(pid, obs) == Reject <==> obs.Some? && obs.value.state == Unreadable && pid <= 0
  {
    FirstReadRejected(pid, obs);
  }

  /** The process kept its birth and group, but that group is missing from the second scan. */
  predicate GroupVanished(o: Observation, again: Option<Observation>, groups: set<int>) {
    Readable(again) && again.value.birth == o.birth && again.value.pgid == o.pgid && o.pgid !in groups
  }

  predicate UnrecordableAgain(o: Observation, again: Option<Observation>, groups: set<int>) {
    || GroupVanished(o, again, groups)
    || (&& again.Some? && !Confirms(o, again, groups)
        && (Unfit(o.pid, o.pgid, again) || (Readable(again) && again.value.pgid == o.pgid && o.birth == "")))
  }

  /** The second pass raises exactly when the process is the same and only its group is missing from
      the second scan, or when it is not confirmed and the read does not fit a record. */
  lemma SecondReadRejected(o: Observation, again: Option<Observation>, groups: set<int>)
    ensures JudgeSecond(o, again, groups) == Reject <==> UnrecordableAgain(o, again, groups)
  {
    if again.Some? && !Confirms(o, again, groups) {
      if again.value.state == Unreadable {
        UnreadableFails(o.pid, o.pgid, again, FromSecondSnapshot, AdmissionOpen, Some(o.birth));
      } else if again.value.pgid != o.pgid {
        MovedFails(o.pid, o.pgid, again, FromSecondSnapshot, AdmissionOpen, Some(o.birth));
      } else {
        ReplacedFails(o.pid, o.pgid, again, FromSecondSnapshot, AdmissionOpen, o.birth);
      }
    }
  }

  /** It happens: the same process is read twice, and the second scan did not reach its group. */
  lemma SecondReadCanBeRejected()
    ensures var o := Observation(11, 11, "birth", Running, Some(10), Untagged);
      JudgeSecond(o, Some(o), {10}) == Reject
  {
    var o := Observation(11, 11, "birth", Running, Some(10), Untagged);
    SecondReadRejected(o, Some(o), {10});
  }

  /** What the passes collect can go into a scope. */
  ghost predicate Evidence(why: Option<Diagnostic>, offences: seq<Offence>) {
    && (why.Some? ==> AllowedPair(why.value))
    && Witnessed(why, offences) && AllValid(offences)
    && (offences != [] ==> why.Some?)
  }

  lemma EvidenceGrows(why: Option<Diagnostic>, offences: seq<Offence>, v: Verdict)
    requires Evidence(why, offences) && v.Flag? && v.offence.Some? && WellFounded(v)
    ensures Evidence(Or(why, Some(v.why)), offences + [v.offence.value])
  {
    assert v.offence.value in offences + [v.offence.value];
    assert forall o :: o in offences ==> o in offences + [v.offence.value];
  }

  /** Observed identities never leave the tracked numbers, and are found under their own key. */
  predicate Inside(observed: map<ObservedKey, Identity>, pids: set<int>, groups: set<int>) {
    forall k :: k in observed ==> observed[k].pid in pids && observed[k].pgid in groups && KeyOf(observed[k]) == k
  }

  // ---- which identities are observed ----

  /** A readable process among these, in one of these groups. */
  predicate Counts(e: Event, pids: set<int>, groups: set<int>) {
    e.Read? && e.pid in pids && Readable(e.obs) && e.obs.value.pgid in groups
  }

  ghost function ReadKeys(seg: seq<Event>, pids: set<int>, groups: set<int>): set<ObservedKey> {
    set e | e in seg && Counts(e, pids, groups) :: KeyOf(IdentityOf(e.obs.value))
  }

  ghost function TreeKeys(t: TreeScan): set<ObservedKey> { set id | id in t.identities :: KeyOf(id) }

  lemma ReadKeysSnoc(seg: seq<Event>, e: Event, pids: set<int>, groups: set<int>)
    ensures ReadKeys(seg + [e], pids, groups) == ReadKeys(seg, pids, groups)
      + (if Counts(e, pids, groups) then {KeyOf(IdentityOf(e.obs.value))} else {})
  {
    assert forall x :: x in seg + [e] <==> x in seg || x == e;
  }

  lemma ReadKeysConcat(a: seq<Event>, b: seq<Event>, pids: set<int>, groups: set<int>)
    ensures ReadKeys(a + b, pids, groups) == ReadKeys(a, pids, groups) + ReadKeys(b, pids, groups)
  {
    assert forall x :: x in a + b <==> x in a || x in b;
  }

  /** The observation is one of the readable first-pass reads of its pid. */
  predicate SeenFirst(o: Observation, seg: seq<Event>) {
    o.state != Unreadable && Read(FirstPass, o.pid, Some(o)) in seg
  }

  /** The readable first-pass observations, one per pid. */
  ghost predicate SeenExactly(seen: seq<Observation>, pids: seq<int>, seg: seq<Event>) {
    && (forall o :: o in seen ==> o.pid in pids)
    && (forall o :: o in seen <==> SeenFirst(o, seg))
    && (forall e :: e in seg ==> e.Read? && e.pid in pids)
    && (forall i, j :: 0 <= i < j < |seen| ==> seen[i].pid != seen[j].pid)
  }

  lemma SeenExactlyGrows(seen: seq<Observation>, pids: seq<int>, seg: seq<Event>, e: Event)
    requires SeenExactly(seen, pids, seg)
    requires e.Read? && e.site == FirstPass && e.pid !in pids && HonestRead(e.pid, e.obs)
    ensures SeenExactly(if Readable(e.obs) then seen + [e.obs.value] else seen, pids + [e.pid], seg + [e])
  {
    var more := if Readable(e.obs) then seen + [e.obs.value] else seen;
    forall o ensures o in more <==> SeenFirst(o, seg + [e]) {
      assert Read(FirstPass, o.pid, Some(o)) in seg + [e] <==>
        Read(FirstPass, o.pid, Some(o)) in seg || Read(FirstPass, o.pid, Some(o)) == e;
    }
    forall i, j | 0 <= i < j < |more| ensures more[i].pid != more[j].pid {
      if j == |seen| { assert seen[i] in seen; }
    }
  }

  /** What one capture has collected so far. */
  datatype Progress = Progress(
    pids: set<int>, groups: set<int>, pidGroups: set<(int, int)>, observed: map<ObservedKey, Identity>,
    seen: seq<Observation>, why: Option<Diagnostic>, offences: seq<Offence>)

  /** Everything collected stays inside the tracked numbers and can go into a scope. */
  ghost predicate Kept(p: Progress) {
    && (forall pid, g :: (pid, g) in p.pidGroups ==> pid in p.pids && g in p.groups)
    && Inside(p.observed, p.pids, p.groups)
    && Evidence(p.why, p.offences)
  }

  predicate SameNumbers(p: Progress, q: Progress) {
    p.pids == q.pids && p.groups == q.groups && p.pidGroups == q.pidGroups
  }

  function Noticed(p: Progress, o: Observation): Progress {
    if o.pgid in p.groups then p.(observed := p.observed[KeyOf(IdentityOf(o)) := IdentityOf(o)]) else p
  }

  function Flagged(p: Progress, v: Verdict): Option<Progress> {
    if v.Flag? && v.offence.Some? then
      Some(p.(why := Or(p.why, Some(v.why)), offences := p.offences + [v.offence.value]))
    else None
  }

  // ---- what the reads of a capture add up to ----

  function VerdictFirst(e: Event): Verdict {
    if e.Read? && e.site == FirstPass then JudgeFirst(e.pid, e.obs) else Pass
  }

  /** Everything that the first-pass reads found, in reading order. */
  ghost function FirstFindings(seg: seq<Event>): Findings {
    if seg == [] then NOTHING else Note(FirstFindings(seg[..|seg| - 1]), VerdictFirst(seg[|seg| - 1]))
  }

  /** What the first pass saw of a process. */
  ghost function SightOf(firsts: seq<Event>, pid: int): Option<Observation> {
    var e := LastRead(firsts, pid);
    if e.Some? && e.value.Read? && Readable(e.value.obs) then e.value.obs else None
  }

  ghost function VerdictSecond(firsts: seq<Event>, t: TreeScan, e: Event): Verdict {
    if e.Read? && e.site == SecondPass && e.pid in t.pids && SightOf(firsts, e.pid).Some?
    then JudgeSecond(SightOf(firsts, e.pid).value, e.obs, t.pgids)
    else Pass
  }

  /** Everything that the second-pass reads found, against the first pass and the second scan. */
  ghost function SecondFindings(firsts: seq<Event>, t: TreeScan, seg: seq<Event>): Findings {
    if seg == [] then NOTHING
    else Note(SecondFindings(firsts, t, seg[..|seg| - 1]), VerdictSecond(firsts, t, seg[|seg| - 1]))
  }

  /** A first-pass read of a process that could not be read. */
  predicate UnreadableFirst(e: Event) {
    e.Read? && e.site == FirstPass && e.obs.Some? && e.obs.value.state == Unreadable
  }

  /** Unless a read cannot be recorded, the first pass finds something exactly when one is unreadable. */
  lemma {:induction false} FirstFindingsMean(seg: seq<Event>)
    requires !RejectedFirst(seg)
    ensures var f := FirstFindings(seg);
      && !f.rejected
      && (f.why.Some? <==> exists e :: e in seg && UnreadableFirst(e))
      && (f.why.Some? ==> f.why.value == Diagnostic(GroupMember, ObservationUnknown))
      && (f.why.Some? <==> f.offences != [])
  {
    if seg != [] {
      var front, e := seg[..|seg| - 1], seg[|seg| - 1];
      assert seg == front + [e];
      assert forall x :: x in seg <==> x in front || x == e;
      FirstFindingsMean(front);
      assert (exists x :: x in seg && UnreadableFirst(x)) <==>
        (exists x :: x in front && UnreadableFirst(x)) || UnreadableFirst(e);
      UnreadableIsFlagged(e);
    }
  }

  lemma UnreadableIsFlagged(e: Event)
    requires !(e.Read? && e.site == FirstPass && UnrecordableFirst(e.pid, e.obs))
    ensures if UnreadableFirst(e)
      then VerdictFirst(e).Flag? && VerdictFirst(e).why == Diagnostic(GroupMember, ObservationUnknown)
           && VerdictFirst(e).offence.Some?
      else VerdictFirst(e) == Pass
  {
    if e.Read? && e.site == FirstPass { FirstReadRejected(e.pid, e.obs); }
  }

  /** A second-pass read that says this against the first pass: unreadable, or not the same process in
      a group that the second scan reached. */
  ghost predicate Doubts(firsts: seq<Event>, t: TreeScan, e: Event, why: Subreason) {
    && e.Read? && e.site == SecondPass && e.pid in t.pids && e.obs.Some?
    && var o := SightOf(firsts, e.pid);
    && o.Some?
    && if e.obs.value.state == Unreadable then why == ObservationUnknown
       else
         && why == ChangedIdentityOrGroup
         && !(e.obs.value.birth == o.value.birth && e.obs.value.pgid == o.value.pgid && o.value.pgid in t.pgids)
  }

  /** The first doubt in reading order gives the diagnostic; without one there is none. */
  ghost predicate FirstDoubt(why: Option<Diagnostic>, firsts: seq<Event>, t: TreeScan, seg: seq<Event>) {
    if why.None? then forall e, w :: e in seg ==> !Doubts(firsts, t, e, w)
    else
      && why.value.stage == GroupMember
      && exists i :: 0 <= i < |seg| && Doubts(firsts, t, seg[i], why.value.subreason)
           && forall j, w :: 0 <= j < i ==> !Doubts(firsts, t, seg[j], w)
  }

  lemma DoubtIsVerdict(firsts: seq<Event>, t: TreeScan, e: Event)
    requires VerdictSecond(firsts, t, e) != Reject
    ensures forall w :: Doubts(firsts, t, e, w) <==>
      VerdictSecond(firsts, t, e).Flag? && VerdictSecond(firsts, t, e).why == Diagnostic(GroupMember, w)
    ensures VerdictSecond(firsts, t, e).Flag? ==>
      VerdictSecond(firsts, t, e).why.stage == GroupMember && VerdictSecond(firsts, t, e).offence.Some?
  {}

  lemma FirstDoubtSnoc(why: Option<Diagnostic>, firsts: seq<Event>, t: TreeScan, seg: seq<Event>, e: Event)
    requires FirstDoubt(why, firsts, t, seg) && VerdictSecond(firsts, t, e) != Reject
    ensures var v := VerdictSecond(firsts, t, e);
      FirstDoubt(Or(why, if v.Flag? then Some(v.why) else None), firsts, t, seg + [e])
  {
    DoubtIsVerdict(firsts, t, e);
    var more := seg + [e];
    assert more[|seg|] == e;
    if why.Some? {
      var i :| 0 <= i < |seg| && Doubts(firsts, t, seg[i], why.value.subreason)
        && forall j, w :: 0 <= j < i ==> !Doubts(firsts, t, seg[j], w);
      assert more[i] == seg[i];
    } else {
      assert forall j :: 0 <= j < |seg| ==> more[j] in seg;
    }
  }

  /** Unless a read cannot be recorded, the second pass finds exactly the first doubt. */
  lemma {:induction false} SecondFindingsMean(firsts: seq<Event>, t: TreeScan, seg: seq<Event>)
    requires !SecondFindings(firsts, t, seg).rejected
    ensures FirstDoubt(SecondFindings(firsts, t, seg).why, firsts, t, seg)
    ensures SecondFindings(firsts, t, seg).why.Some? <==> SecondFindings(firsts, t, seg).offences != []
  {
    if seg != [] {
      var front, e := seg[..|seg| - 1], seg[|seg| - 1];
      assert seg == front + [e];
      SecondFindingsMean(firsts, t, front);
      DoubtIsVerdict(firsts, t, e);
      FirstDoubtSnoc(SecondFindings(firsts, t, front).why, firsts, t, front, e);
    }
  }

  lemma SecondFindingsSnoc(firsts: seq<Event>, t: TreeScan, seg: seq<Event>, e: Event)
    ensures SecondFindings(firsts, t, seg + [e])
      == Note(SecondFindings(firsts, t, seg), VerdictSecond(firsts, t, e))
  {
    assert (seg + [e])[..|seg|] == seg;
  }

  /** Reads of newcomers only say nothing about the processes of the first pass. */
  lemma {:induction false} NewcomersFindNothing(firsts: seq<Event>, t: TreeScan, extra: seq<Event>, seg: seq<Event>)
    requires forall e :: e in extra ==> e.Read? && e.site == SecondExtra
    ensures SecondFindings(firsts, t, extra + seg) == SecondFindings(firsts, t, seg)
    decreases |extra| + |seg|
  {
    if seg != [] {
      assert (extra + seg)[..|extra + seg| - 1] == extra + seg[..|seg| - 1];
      NewcomersFindNothing(firsts, t, extra, seg[..|seg| - 1]);
    } else if extra != [] {
      assert extra + seg == extra && extra[|extra| - 1] in extra;
      var front := extra[..|extra| - 1];
      assert front + [] == front && forall e :: e in front ==> e in extra;
      NewcomersFindNothing(firsts, t, front, []);
    } else {
      assert extra + seg == seg;
    }
  }

  // ---- the first pass ----

  /** One first-pass read; None stands for an exception. */
  function AfterFirst(p: Progress, pid: int, obs: Option<Observation>): Option<Progress> {
    if obs.None? then Some(p)
    else if obs.value.state == Unreadable then Flagged(p, JudgeFirst(pid, obs))
    else Some(Noticed(p.(seen := p.seen + [obs.value]), obs.value))
  }

  lemma AfterFirstKeeps(p: Progress, pid: int, obs: Option<Observation>)
    requires Kept(p) && HonestRead(pid, obs) && pid in p.pids
    ensures AfterFirst(p, pid, obs).None? <==> UnrecordableFirst(pid, obs)
    ensures AfterFirst(p, pid, obs).Some? ==>
      var q := AfterFirst(p, pid, obs).value;
      Kept(q) && SameNumbers(p, q) && q.seen == if Readable(obs) then p.seen + [obs.value] else p.seen
  {
    FirstReadRejected(pid, obs);
    var v := JudgeFirst(pid, obs);
    if v.Flag? { EvidenceGrows(p.why, p.offences, v); }
  }

  /** The pids in `done` were read, nothing was rejected, and the readable ones were kept. */
  ghost predicate FirstPassSoFar(p: Progress, done: seq<int>, seg: seq<Event>) {
    && Kept(p)
    && SeenExactly(p.seen, done, seg)
    && (forall pid :: pid in done ==> WasRead(seg, FirstPass, pid))
    && (forall e :: e in seg ==> e.Read? && e.site == FirstPass && !UnrecordableFirst(e.pid, e.obs))
    && FirstFindings(seg) == Findings(p.why, p.offences, false)
    && (forall o :: o in p.seen ==> SightOf(seg, o.pid) == Some(o))
  }

  lemma ReadMore(seg: seq<Event>, e: Event, done: seq<int>)
    requires e.Read? && forall pid :: pid in done ==> WasRead(seg, e.site, pid)
    ensures forall pid :: pid in done + [e.pid] ==> WasRead(seg + [e], e.site, pid)
  {
    forall pid | pid in done + [e.pid] ensures WasRead(seg + [e], e.site, pid) {
      if pid == e.pid {
        assert e == Read(e.site, pid, e.obs) && e in seg + [e];
      } else {
        assert WasRead(seg, e.site, pid);
        var obs :| Read(e.site, pid, obs) in seg;
        assert Read(e.site, pid, obs) in seg + [e];
      }
    }
  }

  lemma SightsGrow(seen: seq<Observation>, done: seq<int>, seg: seq<Event>, e: Event)
    requires SeenExactly(seen, done, seg) && forall o :: o in seen ==> SightOf(seg, o.pid) == Some(o)
    requires e.Read? && e.site == FirstPass && e.pid !in done && HonestRead(e.pid, e.obs)
    ensures forall o :: o in (if Readable(e.obs) then seen + [e.obs.value] else seen) ==>
      SightOf(seg + [e], o.pid) == Some(o)
  {
    forall o | o in (if Readable(e.obs) then seen + [e.obs.value] else seen)
      ensures SightOf(seg + [e], o.pid) == Some(o)
    {
      LastReadSnoc(seg, e, o.pid);
      if o in seen { assert o.pid in done; }
    }
  }

  lemma FirstFindingsGrow(p: Progress, seg: seq<Event>, pid: int, obs: Option<Observation>)
    requires FirstFindings(seg) == Findings(p.why, p.offences, false)
    ensures AfterFirst(p, pid, obs).Some? ==>
      var q := AfterFirst(p, pid, obs).value;
      FirstFindings(seg + [Read(FirstPass, pid, obs)]) == Findings(q.why, q.offences, false)
  {
    assert (seg + [Read(FirstPass, pid, obs)])[..|seg|] == seg;
  }

  lemma FirstPassGrows(p: Progress, done: seq<int>, seg: seq<Event>, pid: int, obs: Option<Observation>)
    requires FirstPassSoFar(p, done, seg) && HonestRead(pid, obs) && pid in p.pids && pid !in done
    ensures AfterFirst(p, pid, obs).None? <==> UnrecordableFirst(pid, obs)
    ensures AfterFirst(p, pid, obs).Some? ==>
      var q := AfterFirst(p, pid, obs).value;
      SameNumbers(p, q) && FirstPassSoFar(q, done + [pid], seg + [Read(FirstPass, pid, obs)])
  {
    var e := Read(FirstPass, pid, obs);
    AfterFirstKeeps(p, pid, obs);
    SeenExactlyGrows(p.seen, done, seg, e);
    FirstFindingsGrow(p, seg, pid, obs);
    SightsGrow(p.seen, done, seg, e);
    ReadMore(seg, e, done);
  }

  /** The observed identities are those from before and those that these reads show. */
  ghost predicate Saw(start: Progress, p: Progress, seg: seq<Event>, pids: set<int>) {
    p.observed.Keys == start.observed.Keys + ReadKeys(seg, pids, start.groups)
  }

  lemma SawFirst(start: Progress, p: Progress, seg: seq<Event>, pids: set<int>, pid: int, obs: Option<Observation>)
    requires Saw(start, p, seg, pids) && SameNumbers(start, p) && pid in pids
    ensures AfterFirst(p, pid, obs).Some? ==>
      Saw(start, AfterFirst(p, pid, obs).value, seg + [Read(FirstPass, pid, obs)], pids)
  {
    ReadKeysSnoc(seg, Read(FirstPass, pid, obs), pids, start.groups);
  }

  lemma SawExtra(start: Progress, p: Progress, seg: seq<Event>, pids: set<int>, pid: int, obs: Option<Observation>)
    requires Saw(start, p, seg, pids) && SameNumbers(start, p) && pid in pids
    ensures Saw(start, if Readable(obs) then Noticed(p, obs.value) else p, seg + [Read(SecondExtra, pid, obs)], pids)
  {
    ReadKeysSnoc(seg, Read(SecondExtra, pid, obs), pids, start.groups);
  }

  lemma SawSecond(start: Progress, p: Progress, seg: seq<Event>, t: TreeScan, o: Observation,
                  again: Option<Observation>)
    requires Saw(start, p, seg, t.pids) && SameNumbers(start, p)
    ensures var longer := seg + [Read(SecondPass, o.pid, again)];
      if o.pid !in t.pids then Saw(start, p, longer, t.pids)
      else AfterSecond(p, o, again, t.pgids).Some? ==>
        Saw(start, AfterSecond(p, o, again, t.pgids).value, longer, t.pids)
  {
    ReadKeysSnoc(seg, Read(SecondPass, o.pid, again), t.pids, start.groups);
  }

  /** Some first-pass read cannot be recorded. */
  ghost predicate RejectedFirst(seg: seq<Event>) {
    exists e :: e in seg && e.Read? && e.site == FirstPass && UnrecordableFirst(e.pid, e.obs)
  }

  method FirstReads(os: Os, start: Progress, pids: set<int>) returns (r: Option<Progress>, ghost seg: seq<Event>)
    requires Kept(start) && pids <= start.pids && start.seen == [] && start.why.None? && start.offences == []
    modifies os
    ensures os.trace == old(os.trace) + seg
    ensures forall e :: e in seg ==> e.Read? && e.site == FirstPass
    ensures r.None? <==> RejectedFirst(seg)
    ensures r.Some? ==> SameNumbers(start, r.value) && FirstPassSoFar(r.value, Sorted(pids), seg)
    ensures r.Some? ==> Saw(start, r.value, seg, pids)
  {
    var p := start;
    seg := [];
    var order := Sorted(pids);
    for n := 0 to |order|
      invariant os.trace == old(os.trace) + seg
      invariant SameNumbers(start, p) && FirstPassSoFar(p, order[..n], seg)
      invariant Saw(start, p, seg, pids)
    {
      var pid := order[n];
      IncreasingTake(order, n);
      var obs := os.ReadProcess(FirstPass, pid);
      FirstPassGrows(p, order[..n], seg, pid, obs);
      assert pid in order;
      SawFirst(start, p, seg, pids, pid, obs);
      var next := AfterFirst(p, pid, obs);
      TraceJoin(old(os.trace), seg, [Read(FirstPass, pid, obs)]);
      seg := seg + [Read(FirstPass, pid, obs)];
      if next.None? {
        assert Read(FirstPass, pid, obs) in seg;
        r := None;
        return;
      }
      p := next.value;
    }
    assert order[..|order|] == order;
    r := Some(p);
  }

  /** Pids that only the second scan lists are read for history, never for admission. */
  method ReadNewcomers(os: Os, start: Progress, pids: set<int>) returns (p: Progress, ghost seg: seq<Event>)
    requires Kept(start) && pids <= start.pids
    modifies os
    ensures os.trace == old(os.trace) + seg
    ensures Kept(p) && p == start.(observed := p.observed)
    ensures forall e :: e in seg ==> e.Read? && e.site == SecondExtra && e.pid in pids
    ensures AllRead(seg, SecondExtra, pids)
    ensures Saw(start, p, seg, pids)
  {
    p, seg := start, [];
    var order := Sorted(pids);
    for n := 0 to |order|
      invariant os.trace == old(os.trace) + seg
      invariant Kept(p) && p == start.(observed := p.observed)
      invariant forall e :: e in seg ==> e.Read? && e.site == SecondExtra && e.pid in pids
      invariant forall pid :: pid in order[..n] ==> WasRead(seg, SecondExtra, pid)
      invariant Saw(start, p, seg, pids)
    {
      assert order[n] in order && order[..n + 1] == order[..n] + [order[n]];
      var obs := os.ReadProcess(SecondExtra, order[n]);
      ReadMore(seg, Read(SecondExtra, order[n], obs), order[..n]);
      SawExtra(start, p, seg, pids, order[n], obs);
      TraceJoin(old(os.trace), seg, [Read(SecondExtra, order[n], obs)]);
      seg := seg + [Read(SecondExtra, order[n], obs)];
      if Readable(obs) { p := Noticed(p, obs.value); }
    }
    assert order[..|order|] == order;
    assert forall pid :: pid in pids ==> pid in order;
  }

  // ---- the second pass ----

  /** One second-pass read of a process that the second scan lists. */
  function AfterSecond(p: Progress, o: Observation, again: Option<Observation>, groups: set<int>): Option<Progress> {
    var q := if Readable(again) then Noticed(p, again.value) else p;
    if JudgeSecond(o, again, groups) == Pass then Some(q) else Flagged(q, JudgeSecond(o, again, groups))
  }

  lemma AfterSecondKeeps(p: Progress, o: Observation, again: Option<Observation>, groups: set<int>)
    requires Kept(p) && HonestRead(o.pid, again) && o.pid in p.pids
    ensures AfterSecond(p, o, again, groups).None? <==> UnrecordableAgain(o, again, groups)
    ensures AfterSecond(p, o, again, groups).Some? ==>
      var q := AfterSecond(p, o, again, groups).value;
      Kept(q) && SameNumbers(p, q) && q.seen == p.seen
  {
    SecondReadRejected(o, again, groups);
    var v := JudgeSecond(o, again, groups);
    if v.Flag? { EvidenceGrows(p.why, p.offences, v); }
  }

  /** The second scan lists the process, and its second read confirms it. */
  predicate Agrees(o: Observation, t: TreeScan, again: Option<Observation>) {
    o.pid in t.pids && Confirms(o, again, t.pgids)
  }

  /** Some second-pass read of `o` agrees with it. */
  ghost predicate Confirmed(o: Observation, t: TreeScan, seg: seq<Event>) {
    exists again :: Read(SecondPass, o.pid, again) in seg && Agrees(o, t, again)
  }

  /** The confirmed identities are exactly the agreeing processes, on top of the root. */
  ghost predicate ConfirmedExactly(confirmed: map<int, Identity>, roots: map<int, Identity>,
                                   done: seq<Observation>, t: TreeScan, seg: seq<Event>) {
    && (forall o :: o in done && Confirmed(o, t, seg) ==> o.pid in confirmed && confirmed[o.pid] == IdentityOf(o))
    && Keyed(confirmed, roots, done, t, seg)
    && (forall e :: e in seg ==> e.Read? && exists o :: o in done && o.pid == e.pid)
  }

  ghost predicate Keyed(confirmed: map<int, Identity>, roots: map<int, Identity>,
                        done: seq<Observation>, t: TreeScan, seg: seq<Event>) {
    forall pid :: pid in confirmed ==> BackedBy(confirmed[pid], pid, roots, done, t, seg)
  }

  ghost predicate BackedBy(id: Identity, pid: int, roots: map<int, Identity>,
                           done: seq<Observation>, t: TreeScan, seg: seq<Event>) {
    && id.pid == pid
    && ((pid in roots && id == roots[pid]) || exists o :: o in done && IdentityOf(o) == id && Confirmed(o, t, seg))
  }

  lemma ConfirmedSnoc(o: Observation, t: TreeScan, seg: seq<Event>, pid: int, again: Option<Observation>)
    ensures Confirmed(o, t, seg + [Read(SecondPass, pid, again)]) <==>
      Confirmed(o, t, seg) || (pid == o.pid && Agrees(o, t, again))
  {
    var e := Read(SecondPass, pid, again);
    assert forall x :: x in seg + [e] <==> x in seg || x == e;
    if pid == o.pid && Agrees(o, t, again) { assert Read(SecondPass, o.pid, again) in seg + [e]; }
  }

  lemma ConfirmedExactlyGrows(confirmed: map<int, Identity>, roots: map<int, Identity>, done: seq<Observation>,
                              t: TreeScan, seg: seq<Event>, o: Observation, again: Option<Observation>)
    requires ConfirmedExactly(confirmed, roots, done, t, seg)
    requires forall x :: x in done ==> x.pid != o.pid
    ensures ConfirmedExactly(if Agrees(o, t, again) then confirmed[o.pid := IdentityOf(o)] else confirmed,
                             roots, done + [o], t, seg + [Read(SecondPass, o.pid, again)])
  {
    var e := Read(SecondPass, o.pid, again);
    var next := if Agrees(o, t, again) then confirmed[o.pid := IdentityOf(o)] else confirmed;
    assert !Confirmed(o, t, seg);
    forall x ensures Confirmed(x, t, seg + [e]) <==> Confirmed(x, t, seg) || (x.pid == o.pid && Agrees(x, t, again)) {
      ConfirmedSnoc(x, t, seg, o.pid, again);
    }
    assert forall x :: x in done + [o] <==> x in done || x == o;
    KeyedGrows(confirmed, roots, done, t, seg, o, again);
    forall x | x in seg + [e] ensures x.Read? && exists y :: y in done + [o] && y.pid == x.pid {
      if x == e { assert o in done + [o]; }
      else { var y :| y in done && y.pid == x.pid; assert y in done + [o]; }
    }
  }

  lemma KeyedGrows(confirmed: map<int, Identity>, roots: map<int, Identity>, done: seq<Observation>,
                   t: TreeScan, seg: seq<Event>, o: Observation, again: Option<Observation>)
    requires Keyed(confirmed, roots, done, t, seg)
    ensures Keyed(if Agrees(o, t, again) then confirmed[o.pid := IdentityOf(o)] else confirmed,
                  roots, done + [o], t, seg + [Read(SecondPass, o.pid, again)])
  {
    var later := seg + [Read(SecondPass, o.pid, again)];
    var next := if Agrees(o, t, again) then confirmed[o.pid := IdentityOf(o)] else confirmed;
    forall pid | pid in next ensures BackedBy(next[pid], pid, roots, done + [o], t, later) {
      if pid == o.pid && Agrees(o, t, again) {
        ConfirmedSnoc(o, t, seg, o.pid, again);
        assert o in done + [o];
      } else {
        assert BackedBy(confirmed[pid], pid, roots, done, t, seg);
        if !(pid in roots && next[pid] == roots[pid]) {
          var x :| x in done && IdentityOf(x) == confirmed[pid] && Confirmed(x, t, seg);
          ConfirmedSnoc(x, t, seg, o.pid, again);
          assert x in done + [o];
        }
      }
    }
  }

  /** Some second-pass read of a process that the second scan lists cannot be recorded. */
  ghost predicate RejectedSecond(seen: seq<Observation>, t: TreeScan, seg: seq<Event>) {
    exists o, again :: o in seen && o.pid in t.pids && Read(SecondPass, o.pid, again) in seg
      && UnrecordableAgain(o, again, t.pgids)
  }

  lemma NoneRejectedGrows(done: seq<Observation>, t: TreeScan, seg: seq<Event>, o: Observation,
                          again: Option<Observation>)
    requires !RejectedSecond(done, t, seg)
    requires forall x :: x in done ==> x.pid != o.pid
    requires forall e :: e in seg ==> e.Read? && exists x :: x in done && x.pid == e.pid
    ensures RejectedSecond(done + [o], t, seg + [Read(SecondPass, o.pid, again)]) <==>
      o.pid in t.pids && UnrecordableAgain(o, again, t.pgids)
  {
    var e := Read(SecondPass, o.pid, again);
    assert forall x :: x in seg + [e] <==> x in seg || x == e;
    assert forall x :: x in done + [o] <==> x in done || x == o;
    if o.pid in t.pids && UnrecordableAgain(o, again, t.pgids) { assert e in seg + [e] && o in done + [o]; }
  }

  /** A read rejected so far stays rejected. */
  lemma RejectedSecondGrows(done: seq<Observation>, seen: seq<Observation>, t: TreeScan, seg: seq<Event>,
                            all: seq<Event>)
    requires RejectedSecond(done, t, seg)
    requires (forall o :: o in done ==> o in seen) && forall e :: e in seg ==> e in all
    ensures RejectedSecond(seen, t, all)
  {}

  /** The progress holds what was known before and what the second-pass reads found. */
  ghost predicate AddsUp(start: Progress, p: Progress, f: Findings) {
    !f.rejected && p.why == Or(start.why, f.why) && p.offences == start.offences + f.offences
  }

  lemma AddsUpSnoc(start: Progress, p: Progress, firsts: seq<Event>, t: TreeScan, seg: seq<Event>,
                   o: Observation, again: Option<Observation>)
    requires AddsUp(start, p, SecondFindings(firsts, t, seg)) && SightOf(firsts, o.pid) == Some(o)
    ensures var e := Read(SecondPass, o.pid, again);
      var later := SecondFindings(firsts, t, seg + [e]);
      if o.pid !in t.pids then AddsUp(start, p, later)
      else AfterSecond(p, o, again, t.pgids).Some? ==> AddsUp(start, AfterSecond(p, o, again, t.pgids).value, later)
  {
    SecondFindingsSnoc(firsts, t, seg, Read(SecondPass, o.pid, again));
  }

  /** What the second pass has collected after these reads. */
  ghost predicate SecondSoFar(start: Progress, p: Progress, t: TreeScan, firsts: seq<Event>, seg: seq<Event>,
                              before: seq<Observation>)
  {
    && Kept(p) && SameNumbers(start, p) && p.seen == start.seen
    && AddsUp(start, p, SecondFindings(firsts, t, seg)) && Saw(start, p, seg, t.pids)
    && (forall o :: o in before ==> WasRead(seg, SecondPass, o.pid))
  }

  lemma OnceMore(seg: seq<Event>, before: seq<Observation>, o: Observation, again: Option<Observation>)
    requires forall x :: x in before ==> WasRead(seg, SecondPass, x.pid)
    ensures forall x :: x in before + [o] ==> WasRead(seg + [Read(SecondPass, o.pid, again)], SecondPass, x.pid)
  {
    var e := Read(SecondPass, o.pid, again);
    forall x | x in before + [o] ensures WasRead(seg + [e], SecondPass, x.pid) {
      if x == o {
        assert e in seg + [e];
      } else {
        assert x in before;
        var obs :| Read(SecondPass, x.pid, obs) in seg;
        assert Read(SecondPass, x.pid, obs) in seg + [e];
      }
    }
  }

  lemma SecondSoFarGrows(start: Progress, p: Progress, t: TreeScan, firsts: seq<Event>, seg: seq<Event>,
                         before: seq<Observation>, o: Observation, again: Option<Observation>)
    requires SecondSoFar(start, p, t, firsts, seg, before)
    requires SightOf(firsts, o.pid) == Some(o) && HonestRead(o.pid, again) && o.pid in p.pids
    ensures var q := if o.pid in t.pids then AfterSecond(p, o, again, t.pgids) else Some(p);
      && (q.None? <==> o.pid in t.pids && UnrecordableAgain(o, again, t.pgids))
      && (q.Some? ==> SecondSoFar(start, q.value, t, firsts, seg + [Read(SecondPass, o.pid, again)], before + [o]))
  {
    AddsUpSnoc(start, p, firsts, t, seg, o, again);
    SawSecond(start, p, seg, t, o, again);
    OnceMore(seg, before, o, again);
    AfterSecondKeeps(p, o, again, t.pgids);
  }

  /** One process of the first pass is read again. */
  method ReadOnceMore(os: Os, start: Progress, p: Progress, t: TreeScan, confirmed: map<int, Identity>, o: Observation,
                   ghost before: seq<Observation>, ghost roots: map<int, Identity>, ghost firsts: seq<Event>,
                   ghost seg: seq<Event>)
    returns (r: Option<(Progress, map<int, Identity>)>, ghost e: Event)
    requires SecondSoFar(start, p, t, firsts, seg, before) && ConfirmedExactly(confirmed, roots, before, t, seg)
    requires !RejectedSecond(before, t, seg) && forall x :: x in before ==> x.pid != o.pid
    requires SightOf(firsts, o.pid) == Some(o) && o.pid in p.pids
    modifies os
    ensures os.trace == old(os.trace) + [e]
    ensures r.None? <==> RejectedSecond(before + [o], t, seg + [e])
    ensures r.Some? ==>
      && SecondSoFar(start, r.value.0, t, firsts, seg + [e], before + [o])
      && ConfirmedExactly(r.value.1, roots, before + [o], t, seg + [e])
    ensures e.Read?
  {
    var again := os.ReadProcess(SecondPass, o.pid);
    e := Read(SecondPass, o.pid, again);
    ConfirmedExactlyGrows(confirmed, roots, before, t, seg, o, again);
    NoneRejectedGrows(before, t, seg, o, again);
    SecondSoFarGrows(start, p, t, firsts, seg, before, o, again);
    if o.pid !in t.pids { return Some((p, confirmed)), e; }
    var next := AfterSecond(p, o, again, t.pgids);
    if next.None? { return None, e; }
    r := Some((next.value, if Confirms(o, again, t.pgids) then confirmed[o.pid := IdentityOf(o)] else confirmed));
  }

  lemma OthersBefore(seen: seq<Observation>, n: nat)
    requires n < |seen| && forall i, j :: 0 <= i < j < |seen| ==> seen[i].pid != seen[j].pid
    ensures forall x :: x in seen[..n] ==> x.pid != seen[n].pid
    ensures seen[n] in seen && seen[..n + 1] == seen[..n] + [seen[n]]
  {
    forall x | x in seen[..n] ensures x.pid != seen[n].pid {
      var i :| 0 <= i < n && seen[i] == x;
    }
  }

  method SecondReads(os: Os, start: Progress, t: TreeScan, roots: map<int, Identity>, ghost firsts: seq<Event>)
    returns (r: Option<(Progress, map<int, Identity>)>, ghost seg: seq<Event>)
    requires Kept(start) && forall o :: o in start.seen ==> o.pid in start.pids
    requires forall i, j :: 0 <= i < j < |start.seen| ==> start.seen[i].pid != start.seen[j].pid
    requires forall pid :: pid in roots ==> roots[pid].pid == pid
    requires forall o :: o in start.seen ==> SightOf(firsts, o.pid) == Some(o)
    modifies os
    ensures os.trace == old(os.trace) + seg
    ensures forall e :: e in seg ==> e.Read?
    ensures r.None? <==> RejectedSecond(start.seen, t, seg)
    ensures r.Some? ==>
      && Kept(r.value.0) && SameNumbers(start, r.value.0) && AddsUp(start, r.value.0, SecondFindings(firsts, t, seg))
      && ConfirmedExactly(r.value.1, roots, start.seen, t, seg)
    ensures r.Some? ==> forall o :: o in start.seen ==> WasRead(seg, SecondPass, o.pid)
    ensures r.Some? ==> Saw(start, r.value.0, seg, t.pids)
  {
    var p, confirmed := start, roots;
    seg := [];
    var seen := start.seen;
    for n := 0 to |seen|
      invariant os.trace == old(os.trace) + seg
      invariant SecondSoFar(start, p, t, firsts, seg, seen[..n])
      invariant ConfirmedExactly(confirmed, roots, seen[..n], t, seg)
      invariant !RejectedSecond(seen[..n], t, seg)
    {
      OthersBefore(seen, n);
      var next, e := ReadOnceMore(os, start, p, t, confirmed, seen[n], seen[..n], roots, firsts, seg);
      TraceJoin(old(os.trace), seg, [e]);
      seg := seg + [e];
      if next.None? {
        RejectedSecondGrows(seen[..n + 1], seen, t, seg, seg);
        return None, seg;
      }
      p, confirmed := next.value.0, next.value.1;
    }
    assert seen[..|seen|] == seen;
    r := Some((p, confirmed));
  }
}
