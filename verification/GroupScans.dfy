/**
 Scans of the tracked process groups before signalling and after it. A scan only detects: it can
 make coverage unknown and can never add a cleanup target.
 */
module GroupScans {
  import opened Base
  import opened Processes
  import opened OperatingSystem
  import opened Merging
  import opened Judging

  ghost predicate WasRead(seg: seq<Event>, site: Site, pid: int) {
    exists obs :: Read(site, pid, obs) in seg
  }

  ghost predicate AllRead(seg: seq<Event>, site: Site, pids: set<int>) {
    forall pid :: pid in pids ==> WasRead(seg, site, pid)
  }

  /** The leader of a group without listed members counts as a member when it is read in the group. */
  predicate LeaderIsMember(obs: Option<Observation>, pgid: int) { Readable(obs) && obs.value.pgid == pgid }

  /** Whatever the segment asked about a group it followed up: every member of every complete table
      was read, for an empty table the leader was probed, and a leader probed as a member was read. */
  ghost predicate Finished(seg: seq<Event>, source: Source, pgid: int) {
    && (forall members :: GroupTable(source, pgid, members, true) in seg ==>
          && AllRead(seg, GroupScan(source, pgid), members)
          && (members == {} ==> WasRead(seg, LeaderProbe(source, pgid), pgid)))
    && (forall obs :: Read(LeaderProbe(source, pgid), pgid, obs) in seg && LeaderIsMember(obs, pgid) ==>
          WasRead(seg, GroupScan(source, pgid), pgid))
  }

  ghost predicate ScansFinished(seg: seq<Event>) { forall source, pgid :: Finished(seg, source, pgid) }

  ghost predicate TableRead(seg: seq<Event>, source: Source, pgid: int) {
    exists members, complete :: GroupTable(source, pgid, members, complete) in seg
  }

  ghost predicate AllScanned(seg: seq<Event>, source: Source, groups: seq<int>) {
    forall g :: g in groups ==> TableRead(seg, source, g)
  }

  /** No event of the segment belongs to a group scan. */
  predicate NoScans(seg: seq<Event>) {
    forall e :: e in seg ==> !e.GroupTable? && (e.Read? ==> !e.site.GroupScan? && !e.site.LeaderProbe?)
  }

  lemma NoScansFinished(seg: seq<Event>)
    requires NoScans(seg)
    ensures ScansFinished(seg)
  {}

  lemma FinishedConcat(a: seq<Event>, b: seq<Event>, source: Source, pgid: int)
    requires Finished(a, source, pgid) && Finished(b, source, pgid)
    ensures Finished(a + b, source, pgid)
  {
    var seg := a + b;
    assert forall e :: e in seg <==> e in a || e in b;
    assert forall site, pid :: WasRead(a, site, pid) || WasRead(b, site, pid) ==> WasRead(seg, site, pid);
    forall members | GroupTable(source, pgid, members, true) in seg
      ensures AllRead(seg, GroupScan(source, pgid), members)
      ensures members == {} ==> WasRead(seg, LeaderProbe(source, pgid), pgid)
    {
      assert GroupTable(source, pgid, members, true) in a || GroupTable(source, pgid, members, true) in b;
    }
  }

  lemma ScansConcat(a: seq<Event>, b: seq<Event>)
    requires ScansFinished(a) && ScansFinished(b)
    ensures ScansFinished(a + b)
  {
    forall source, pgid ensures Finished(a + b, source, pgid) { FinishedConcat(a, b, source, pgid); }
  }

  lemma TableReadConcat(a: seq<Event>, b: seq<Event>)
    ensures forall source, g :: TableRead(a, source, g) || TableRead(b, source, g) ==> TableRead(a + b, source, g)
  {
    forall source, g | TableRead(a, source, g) || TableRead(b, source, g) ensures TableRead(a + b, source, g) {
      var members, complete :| GroupTable(source, g, members, complete) in a
        || GroupTable(source, g, members, complete) in b;
      assert GroupTable(source, g, members, complete) in a + b;
    }
  }

  /** The members come from the table row set or, when that is empty, from the leader probe. */
  ghost predicate MembersFrom(seg: seq<Event>, source: Source, pgid: int, members: set<int>) {
    || (members != {} && seg == [GroupTable(source, pgid, members, true)])
    || exists obs ::
         && seg == [GroupTable(source, pgid, {}, true), Read(LeaderProbe(source, pgid), pgid, obs)]
         && members == if LeaderIsMember(obs, pgid) then {pgid} else {}
  }

  /** The scan of the group ended without members to compare. */
  ghost predicate GaveUp(seg: seq<Event>, source: Source, pgid: int) {
    TableRead(seg, source, pgid) && ScansFinished(seg)
  }

  method GroupMembers(os: Os, ghost ctx: Context, source: Source, pgid: int)
    returns (members: set<int>, complete: bool, ghost seg: seq<Event>)
    modifies os
    ensures os.trace == old(os.trace) + seg && AtStage(seg, ScanStage(source))
    ensures Scan(ctx, NOTHING, seg) == if complete then NOTHING else NOTHING.(why := Some(TABLE_INCOMPLETE))
    ensures if complete then MembersFrom(seg, source, pgid, members) else GaveUp(seg, source, pgid)
  {
    members, complete := os.ReadGroupTable(source, pgid);
    ghost var table := GroupTable(source, pgid, members, complete);
    seg := [table];
    ScanOne(ctx, table);
    if complete && members == {} {
      var leader := os.ReadProcess(LeaderProbe(source, pgid), pgid);
      ghost var probe := Read(LeaderProbe(source, pgid), pgid, leader);
      ScanOne(ctx, probe);
      ScanAppend(ctx, [table], [probe]);
      seg := [table, probe];
      assert seg == [table] + [probe];
      if leader.Some? && leader.value.state == Unreadable {
        ProbeFailed(source, pgid, leader);
        complete := false;
      } else if leader.Some? && leader.value.pgid == pgid {
        members := {pgid};
      }
    } else if !complete {
      assert table in seg;
    }
  }

  lemma ProbeFailed(source: Source, pgid: int, leader: Option<Observation>)
    requires leader.Some? && leader.value.state == Unreadable
    ensures GaveUp([GroupTable(source, pgid, {}, true), Read(LeaderProbe(source, pgid), pgid, leader)], source, pgid)
  {
    var table, probe := GroupTable(source, pgid, {}, true), Read(LeaderProbe(source, pgid), pgid, leader);
    assert table in [table, probe] && probe in [table, probe];
  }

  /** Nothing but reads of members of this group. */
  predicate MemberReads(seg: seq<Event>, source: Source, pgid: int) {
    AtStage(seg, ScanStage(source)) && forall e :: e in seg ==> e.Read? && e.site == GroupScan(source, pgid)
  }

  /** The reads of the first members of a group and what was found in them. */
  ghost predicate Comparing(ctx: Context, source: Source, pgid: int, seg: seq<Event>, f: Findings, pids: seq<int>) {
    && MemberReads(seg, source, pgid) && Scan(ctx, NOTHING, seg) == f && !f.rejected
    && forall pid :: pid in pids ==> WasRead(seg, GroupScan(source, pgid), pid)
  }

  lemma ComparingSnoc(ctx: Context, source: Source, pgid: int, seg: seq<Event>, f: Findings, pids: seq<int>,
                      pid: int, obs: Option<Observation>)
    requires Comparing(ctx, source, pgid, seg, f, pids)
    ensures var longer := seg + [Read(GroupScan(source, pgid), pid, obs)];
      var g := Note(f, JudgeMember(ctx.ids, source, pgid, pid, obs));
      && MemberReads(longer, source, pgid) && Scan(ctx, NOTHING, longer) == g
      && (!g.rejected ==> Comparing(ctx, source, pgid, longer, g, pids + [pid]))
  {
    var e := Read(GroupScan(source, pgid), pid, obs);
    assert (seg + [e])[..|seg|] == seg && (seg + [e])[|seg|] == e;
    assert Judge(ctx, e) == JudgeMember(ctx.ids, source, pgid, pid, obs);
    forall p | p in pids + [pid] ensures WasRead(seg + [e], GroupScan(source, pgid), p) {
      if p in pids {
        var o :| Read(GroupScan(source, pgid), p, o) in seg;
        assert Read(GroupScan(source, pgid), p, o) in seg + [e];
      } else {
        assert e in seg + [e];
      }
    }
  }

  /** Any member not matching the captured identities is flagged; None stands for an exception. */
  method CompareGroupMembers(os: Os, ghost ctx: Context, source: Source, pgid: int, members: set<int>,
                             ids: map<int, Identity>)
    returns (found: Option<(Option<Diagnostic>, seq<Offence>)>, ghost seg: seq<Event>)
    requires ctx.ids == ids
    modifies os
    ensures os.trace == old(os.trace) + seg && MemberReads(seg, source, pgid)
    ensures Reports(found, Scan(ctx, NOTHING, seg))
    ensures found.Some? ==> AllRead(seg, GroupScan(source, pgid), members)
  {
    seg := [];
    var why: Option<Diagnostic> := None;
    var offending: seq<Offence> := [];
    var order := Sorted(members);
    for n := 0 to |order|
      invariant os.trace == old(os.trace) + seg
      invariant Comparing(ctx, source, pgid, seg, Findings(why, offending, false), order[..n])
    {
      var pid := order[n];
      var obs := os.ReadProcess(GroupScan(source, pgid), pid);
      ComparingSnoc(ctx, source, pgid, seg, Findings(why, offending, false), order[..n], pid, obs);
      assert order[..n + 1] == order[..n] + [pid];
      TraceJoin(old(os.trace), seg, [Read(GroupScan(source, pgid), pid, obs)]);
      seg := seg + [Read(GroupScan(source, pgid), pid, obs)];
      var verdict := JudgeMember(ids, source, pgid, pid, obs);
      if verdict.Reject? {
        found := None;
        return;
      }
      if verdict.Flag? {
        why := Or(why, Some(verdict.why));
        offending := offending + (if verdict.offence.Some? then [verdict.offence.value] else []);
      }
    }
    assert order[..|order|] == order;
    var merged := MergeObservations(offending);
    found := Some((why, merged));
  }

  /** What a scan returns is exactly what the fold over its reads found. */
  ghost predicate Reports(found: Option<(Option<Diagnostic>, seq<Offence>)>, f: Findings) {
    if f.rejected then found.None? else found == Some((f.why, Merge(f.offences)))
  }

  /** The first groups scanned and what was found in them. */
  ghost predicate Scanning(ctx: Context, source: Source, seg: seq<Event>, why: Option<Diagnostic>,
                           observations: seq<Offence>, groups: seq<int>) {
    && AtStage(seg, ScanStage(source)) && Collected(why, observations, Scan(ctx, NOTHING, seg))
    && AllScanned(seg, source, groups) && ScansFinished(seg)
  }

  lemma ScanningSnoc(ctx: Context, source: Source, seg: seq<Event>, why: Option<Diagnostic>, observations: seq<Offence>,
                     groups: seq<int>, g: int, more: seq<Event>, one: (Option<Diagnostic>, seq<Offence>))
    requires Scanning(ctx, source, seg, why, observations, groups)
    requires AtStage(more, ScanStage(source)) && Reports(Some(one), Scan(ctx, NOTHING, more))
      && TableRead(more, source, g)
      && ScansFinished(more)
    ensures Scanning(ctx, source, seg + more, Or(why, one.0), observations + one.1, groups + [g])
  {
    ScanAppend(ctx, seg, more);
    TableReadConcat(seg, more);
    ScansConcat(seg, more);
    Collect(why, observations, Scan(ctx, NOTHING, seg), one.0, one.1, Scan(ctx, NOTHING, more));
  }

  method ScanNext(os: Os, ghost ctx: Context, source: Source, pgid: int, ids: map<int, Identity>,
                  why: Option<Diagnostic>, observations: seq<Offence>, ghost seg: seq<Event>, ghost done: seq<int>)
    returns (ok: bool, newWhy: Option<Diagnostic>, newObservations: seq<Offence>, ghost more: seq<Event>)
    requires ctx.ids == ids && Scanning(ctx, source, seg, why, observations, done)
    modifies os
    ensures os.trace == old(os.trace) + more
    ensures if ok then Scanning(ctx, source, seg + more, newWhy, newObservations, done + [pgid])
      else AtStage(seg + more, ScanStage(source)) && Scan(ctx, NOTHING, seg + more).rejected
  {
    newWhy, newObservations := why, observations;
    var one, looked := ScanGroup(os, ctx, source, pgid, ids);
    more := looked;
    ok := one.Some?;
    if ok {
      ScanningSnoc(ctx, source, seg, why, observations, done, pgid, more, one.value);
      newWhy, newObservations := Or(why, one.value.0), observations + one.value.1;
    } else {
      ScanAppend(ctx, seg, more);
    }
  }

  /** Both the detection before signalling and the rescan afterwards; neither adds a target. */
  method ScanTrackedGroups(os: Os, ghost ctx: Context, source: Source, groups: set<int>, ids: map<int, Identity>)
    returns (found: Option<(Option<Diagnostic>, seq<Offence>)>, ghost seg: seq<Event>)
    requires ctx.ids == ids
    modifies os
    ensures os.trace == old(os.trace) + seg && AtStage(seg, ScanStage(source))
    ensures Reports(found, Scan(ctx, NOTHING, seg))
    ensures found.Some? ==> (forall g :: g in groups ==> TableRead(seg, source, g)) && ScansFinished(seg)
  {
    seg := [];
    var why: Option<Diagnostic> := None;
    var observations: seq<Offence> := [];
    var order := Sorted(groups);
    for n := 0 to |order|
      invariant os.trace == old(os.trace) + seg
      invariant Scanning(ctx, source, seg, why, observations, order[..n])
    {
      assert order[..n + 1] == order[..n] + [order[n]];
      var ok, newWhy, newObservations, more :=
        ScanNext(os, ctx, source, order[n], ids, why, observations, seg, order[..n]);
      TraceJoin(old(os.trace), seg, more);
      seg := seg + more;
      if !ok {
        found := None;
        return;
      }
      why, observations := newWhy, newObservations;
    }
    var merged := MergeObservations(observations);
    found := Some((why, merged));
    assert order[..|order|] == order;
  }

  /** Observations gathered batch by batch, each batch merged on its own. */
  ghost predicate Collected(why: Option<Diagnostic>, observations: seq<Offence>, f: Findings) {
    !f.rejected && f.why == why && Merge(observations) == Merge(f.offences)
  }

  lemma Collect(why: Option<Diagnostic>, observations: seq<Offence>, f: Findings,
                laterWhy: Option<Diagnostic>, batch: seq<Offence>, g: Findings)
    requires Collected(why, observations, f)
    requires Reports(Some((laterWhy, batch)), g)
    ensures Collected(Or(why, laterWhy), observations + batch, Then(f, g))
  {
    MergeFlattens(observations, g.offences);
    MergeFlattens(f.offences, g.offences);
  }

  method ScanGroup(os: Os, ghost ctx: Context, source: Source, pgid: int, ids: map<int, Identity>)
    returns (found: Option<(Option<Diagnostic>, seq<Offence>)>, ghost seg: seq<Event>)
    requires ctx.ids == ids
    modifies os
    ensures os.trace == old(os.trace) + seg && AtStage(seg, ScanStage(source))
    ensures Reports(found, Scan(ctx, NOTHING, seg))
    ensures found.Some? ==> TableRead(seg, source, pgid) && ScansFinished(seg)
  {
    var members, complete, first := GroupMembers(os, ctx, source, pgid);
    if !complete {
      found, seg := Some((Some(TABLE_INCOMPLETE), [])), first;
    } else {
      found, seg := CompareAfter(os, ctx, source, pgid, members, ids, first);
    }
  }

  method CompareAfter(os: Os, ghost ctx: Context, source: Source, pgid: int, members: set<int>, ids: map<int, Identity>,
                      ghost first: seq<Event>)
    returns (found: Option<(Option<Diagnostic>, seq<Offence>)>, ghost seg: seq<Event>)
    requires ctx.ids == ids && AtStage(first, ScanStage(source)) && Scan(ctx, NOTHING, first) == NOTHING
    requires MembersFrom(first, source, pgid, members)
    modifies os
    ensures first <= seg && os.trace == old(os.trace) + seg[|first|..] && AtStage(seg, ScanStage(source))
    ensures Reports(found, Scan(ctx, NOTHING, seg))
    ensures found.Some? ==> TableRead(seg, source, pgid) && ScansFinished(seg)
  {
    var compared, second := CompareGroupMembers(os, ctx, source, pgid, members, ids);
    found, seg := compared, first + second;
    AtStageConcat(first, second, ScanStage(source));
    ScanAppend(ctx, first, second);
    NothingThen(Scan(ctx, NOTHING, second));
    if found.Some? { ScannedTogether(first, second, source, pgid, members); }
  }

  lemma NothingThen(f: Findings)
    ensures Then(NOTHING, f) == f
  {
    assert [] + f.offences == f.offences;
  }

  lemma ScannedTogether(first: seq<Event>, second: seq<Event>, source: Source, pgid: int, members: set<int>)
    requires AllRead(second, GroupScan(source, pgid), members) && MemberReads(second, source, pgid)
    requires MembersFrom(first, source, pgid, members)
    ensures TableRead(first + second, source, pgid) && ScansFinished(first + second)
  {
    var seg := first + second;
    assert forall e :: e in seg <==> e in first || e in second;
    assert forall site, pid :: WasRead(first, site, pid) || WasRead(second, site, pid) ==> WasRead(seg, site, pid);
    if members != {} && first == [GroupTable(source, pgid, members, true)] {
      assert first[0] in seg;
    } else {
      assert first[0] in seg && first[1] in seg && first[1] in first;
    }
  }
}
