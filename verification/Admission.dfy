/**
 Root-bound admission: process identities become cleanup targets only when two snapshots bracketed
 by three checks of the live, same-birth root agree on them.
 */
module Admission {
  import opened Base
  import opened Processes
  import opened ProcessTree
  import opened OperatingSystem
  import opened Merging
  import opened Judging
  import opened GroupScans
  import opened CapturePasses

  method Values(m: map<ObservedKey, Identity>) returns (r: seq<Identity>)
    ensures forall id :: id in r <==> id in m.Values
  {
    r := [];
    var left := m.Values;
    while left != {}
      invariant left <= m.Values
      invariant forall id :: id in m.Values <==> id in left || id in r
      decreases |left|
    {
      assert (forall x :: x !in left) ==> left == {};
      var id :| id in left;
      left := left - {id};
      r := r + [id];
    }
  }

  // ---- the admission gate ----

  /** The root was polled alive and read running with its birth and group. */
  predicate RootAlive(check: seq<Event>, root: Identity) {
    && |check| == 2 && check[0] == Polled(StillRunning)
    && check[1].Read? && check[1].site == RootCheck && check[1].pid == root.pid
    && RunsAs(check[1].obs, root) && check[1].obs.value.pgid == root.pgid
  }

  /** The root was polled or read as anything else. */
  predicate RootGone(check: seq<Event>, root: Identity) {
    || (|check| == 1 && check[0].Polled? && check[0].answer != StillRunning)
    || (&& |check| == 2 && check[0] == Polled(StillRunning)
        && check[1].Read? && check[1].site == RootCheck && check[1].pid == root.pid && !RootAlive(check, root))
  }

  /** The consecutive parts of a capture that ran to its end; `from` is where its scans start to follow
      parent links: the root, or nowhere once admission is closed. */
  datatype Parts = Parts(
    check1: seq<Event>, table1: seq<Event>, reads1: seq<Event>,
    check2: seq<Event>, table2: seq<Event>, reads2: seq<Event>, check3: seq<Event>, from: Option<int>)
  {
    function Flat(): seq<Event> { check1 + table1 + reads1 + check2 + table2 + reads2 + check3 }
  }

  /** The table was read, and completely. */
  predicate Scanned(table: seq<Event>) { |table| == 1 && table[0].IdentityTable? && table[0].complete }

  /** The scan of this table, complete or not, lists the process; without an answer it lists none. */
  ghost predicate InScan(table: seq<Event>, from: Option<int>, pgid: Option<int>, pid: int) {
    exists rows, complete :: table == [IdentityTable(rows, complete)] && InTree(rows, from, pgid, pid)
  }

  ghost predicate GroupInScan(table: seq<Event>, from: Option<int>, pgid: Option<int>, g: int) {
    exists rows, complete :: table == [IdentityTable(rows, complete)] && ReachedGroup(rows, from, pgid, g)
  }

  /** What one table read gave: nothing, or the one view of its rows. */
  ghost predicate ScanOf(table: seq<Event>, from: Option<int>, pgid: Option<int>, t: Option<TreeScan>) {
    if t.None? then table == [TableFailed]
    else exists rows, complete ::
      table == [IdentityTable(rows, complete)] && IsTree(rows, complete, from, pgid, t.value)
  }

  lemma ScanNumbers(table: seq<Event>, from: Option<int>, pgid: Option<int>, t: Option<TreeScan>)
    requires ScanOf(table, from, pgid, t)
    ensures forall pid :: InScan(table, from, pgid, pid) <==> t.Some? && pid in t.value.pids
    ensures forall g :: GroupInScan(table, from, pgid, g) <==> t.Some? && g in t.value.pgids
    ensures Scanned(table) <==> t.Some? && t.value.coverage == CoverageComplete
  {
    if t.Some? {
      var rows, complete :| table == [IdentityTable(rows, complete)] && IsTree(rows, complete, from, pgid, t.value);
      forall r, c | table == [IdentityTable(r, c)] ensures r == rows && c == complete {
        assert table[0] == IdentityTable(r, c);
      }
    } else {
      assert forall r, c :: table != [IdentityTable(r, c)] by { assert table[0] == TableFailed; }
    }
  }

  /** Three live-root checks bracket two complete tree scans that list the process, and two reads,
      one after each scan, that agree on its birth and group; the second scan reaches its group. */
  ghost predicate Admitted(parts: Parts, root: Identity, id: Identity) {
    && RootAlive(parts.check1, root) && RootAlive(parts.check2, root) && RootAlive(parts.check3, root)
    && (exists rows ::
          && parts.table1 == [IdentityTable(rows, true)] && InTree(rows, Some(root.pid), Some(root.pgid), id.pid))
    && (exists rows ::
          && parts.table2 == [IdentityTable(rows, true)] && InTree(rows, Some(root.pid), Some(root.pgid), id.pid)
          && ReachedGroup(rows, Some(root.pid), Some(root.pgid), id.pgid))
    && (exists o :: IdentityOf(o) == id && SeenFirst(o, parts.reads1))
    && ReadTwice(id, parts.reads2)
  }

  predicate AgreesWith(again: Observation, id: Identity) {
    again.state != Unreadable && again.birth == id.birth && again.pgid == id.pgid
  }

  /** A second-pass read shows the same birth and group. */
  ghost predicate ReadTwice(id: Identity, looks: seq<Event>) {
    exists again :: Read(SecondPass, id.pid, Some(again)) in looks && AgreesWith(again, id)
  }

  /** The root itself, or a process that these parts admit. */
  ghost predicate RootOrAdmitted(id: Identity, parts: Parts, root: Option<Identity>) {
    root == Some(id) || (root.Some? && Admitted(parts, root.value, id))
  }

  ghost predicate AdmittedAll(scope: Scope, parts: Parts, root: Option<Identity>) {
    forall id :: id in scope.identities ==> RootOrAdmitted(id, parts, root)
  }

  /** Exactly the root's own numbers and those that the scans list. */
  ghost predicate NumbersFrom(pids: set<int>, groups: set<int>, parts: Parts, rootPid: int, rootPgid: int) {
    && (forall pid :: pid in pids <==>
          || pid == rootPid
          || InScan(parts.table1, parts.from, Some(rootPgid), pid)
          || InScan(parts.table2, parts.from, Some(rootPgid), pid))
    && (forall g :: g in groups <==>
          || g == rootPgid
          || GroupInScan(parts.table1, parts.from, Some(rootPgid), g)
          || GroupInScan(parts.table2, parts.from, Some(rootPgid), g))
  }

  /** The second scan was complete and this is its view. */
  ghost predicate SecondView(parts: Parts, rootPgid: int, t: TreeScan) {
    exists rows :: parts.table2 == [IdentityTable(rows, true)] && IsTree(rows, true, parts.from, Some(rootPgid), t)
  }

  /** A scan that failed says so; else the diagnostic and the observations are what the reads found. */
  ghost predicate Diagnosed(why: Option<Diagnostic>, offences: seq<Offence>, parts: Parts, rootPgid: int) {
    if !Scanned(parts.table1) then why == Some(Diagnostic(FirstSnapshot, SnapshotFailure)) && offences == []
    else if parts.table2 == [] then
      why == FirstFindings(parts.reads1).why && offences == Merge(FirstFindings(parts.reads1).offences)
    else if !Scanned(parts.table2) then why == Some(Diagnostic(SecondSnapshot, SnapshotFailure)) && offences == []
    else exists t :: SecondView(parts, rootPgid, t) && Found(why, offences, parts, t)
  }

  ghost predicate Found(why: Option<Diagnostic>, offences: seq<Offence>, parts: Parts, t: TreeScan) {
    var f := Then(FirstFindings(parts.reads1), SecondFindings(parts.reads1, t, parts.reads2));
    !f.rejected && why == f.why && offences == Merge(f.offences)
  }

  ghost predicate ScopeFrom(scope: Scope, parts: Parts, rootPid: int, rootPgid: int) {
    NumbersFrom(scope.trackedPids, scope.trackedPgids, parts, rootPid, rootPgid)
    && Diagnosed(scope.diagnostic, scope.offences, parts, rootPgid)
  }

  /** The capture follows parent links only from a live root, and then reads all that the scan lists. */
  ghost predicate Paced(parts: Parts, root: Option<Identity>, rootPid: int, rootPgid: int) {
    && (parts.from.Some? ==> parts.from.value == rootPid && root.Some? && RootAlive(parts.check1, root.value))
    && (parts.from.None? ==> parts.reads1 == parts.check2 == parts.table2 == parts.reads2 == parts.check3 == [])
    && (parts.from.Some? && Scanned(parts.table1) && !RejectedFirst(parts.reads1) ==>
          forall pid :: InScan(parts.table1, parts.from, Some(rootPgid), pid) ==> WasRead(parts.reads1, FirstPass, pid))
  }

  /** After a complete second scan every process of the first pass was read again, and so was every
      process that only the second scan lists. */
  ghost predicate ReadAgain(parts: Parts, rootPgid: int) {
    Scanned(parts.table2) ==>
      exists t :: SecondView(parts, rootPgid, t)
        && (forall o :: SeenFirst(o, parts.reads1) ==> WasRead(parts.reads2, SecondPass, o.pid))
        && (forall pid :: pid in t.pids && SightOf(parts.reads1, pid).None? ==> WasRead(parts.reads2, SecondExtra, pid))
  }

  /** The first scan was complete and this is its view. */
  ghost predicate FirstView(parts: Parts, rootPgid: int, t: TreeScan) {
    exists rows :: parts.table1 == [IdentityTable(rows, true)] && IsTree(rows, true, parts.from, Some(rootPgid), t)
  }

  ghost function RootKeys(root: Option<Identity>): set<ObservedKey> { if root.Some? then {KeyOf(root.value)} else {} }

  /** The scope holds exactly these pairs and these observed identities. */
  ghost predicate Remembers(scope: Scope, pairs: set<(int, int)>, keys: set<ObservedKey>) {
    && scope.pidGroups == pairs
    && (forall id :: id in scope.observed ==> KeyOf(id) in keys)
    && (forall k :: k in keys ==> exists id :: id in scope.observed && KeyOf(id) == k)
  }

  /** What the first scan and its reads tell: the root, and every readable process in a tracked group. */
  ghost function FirstKeys(parts: Parts, root: Option<Identity>, rootPgid: int, t: TreeScan): set<ObservedKey> {
    RootKeys(root) + ReadKeys(parts.reads1, t.pids, {rootPgid} + t.pgids)
  }

  ghost function SecondKeys(parts: Parts, rootPgid: int, t: TreeScan, u: TreeScan): set<ObservedKey> {
    TreeKeys(t) + ReadKeys(parts.reads2, u.pids, {rootPgid} + t.pgids + u.pgids)
  }

  /** Pairs and same-row identities of a scan are kept only after a later live-root check; identities from
      reads at once. `open` says whether admission is still open in the end. */
  ghost predicate HistoryFrom(scope: Scope, parts: Parts, root: Option<Identity>, rootPid: int, rootPgid: int,
                              open: bool)
  {
    if parts.from.None? || !Scanned(parts.table1) then Remembers(scope, {(rootPid, rootPgid)}, RootKeys(root))
    else exists t :: FirstView(parts, rootPgid, t) && HistoryAfter(scope, parts, root, rootPid, rootPgid, open, t)
  }

  ghost predicate HistoryAfter(scope: Scope, parts: Parts, root: Option<Identity>, rootPid: int, rootPgid: int,
                               open: bool, t: TreeScan)
  {
    var keys := FirstKeys(parts, root, rootPgid, t);
    if parts.table2 == [] then Remembers(scope, {(rootPid, rootPgid)}, keys)
    else if !Scanned(parts.table2) then Remembers(scope, {(rootPid, rootPgid)} + t.pidGroups, keys + TreeKeys(t))
    else exists u :: SecondView(parts, rootPgid, u)
           && HistoryInFull(scope, {(rootPid, rootPgid)} + t.pidGroups, keys + SecondKeys(parts, rootPgid, t, u), u,
                            root.Some? && RootAlive(parts.check3, root.value), open)
  }

  /** The last check decides about the pairs and identities of the last scan; while admission is open it passed. */
  ghost predicate HistoryInFull(scope: Scope, pairs: set<(int, int)>, keys: set<ObservedKey>, u: TreeScan,
                                alive: bool, open: bool)
  {
    || (alive && Remembers(scope, pairs + u.pidGroups, keys + TreeKeys(u)))
    || (!open && Remembers(scope, pairs, keys))
  }

  /** What is kept in either case, whether or not admission is still open. */
  lemma HistoryEither(scope: Scope, parts: Parts, root: Option<Identity>, rootPid: int, rootPgid: int, open: bool)
    requires HistoryFrom(scope, parts, root, rootPid, rootPgid, open)
    ensures HistoryFrom(scope, parts, root, rootPid, rootPgid, false)
  {
    if parts.from.Some? && Scanned(parts.table1) {
      var t :| FirstView(parts, rootPgid, t) && HistoryAfter(scope, parts, root, rootPid, rootPgid, open, t);
      assert HistoryAfter(scope, parts, root, rootPid, rootPgid, false, t);
    }
  }

  /** What the diagnostic of a captured scope means, read by read. */
  ghost predicate Explained(why: Option<Diagnostic>, parts: Parts, rootPgid: int) {
    if !Scanned(parts.table1) then why == Some(Diagnostic(FirstSnapshot, SnapshotFailure))
    else if parts.table2 != [] && !Scanned(parts.table2) then why == Some(Diagnostic(SecondSnapshot, SnapshotFailure))
    else if exists e :: e in parts.reads1 && UnreadableFirst(e) then
      why == Some(Diagnostic(GroupMember, ObservationUnknown))
    else if parts.table2 == [] then why.None?
    else exists t :: SecondView(parts, rootPgid, t) && FirstDoubt(why, parts.reads1, t, parts.reads2)
  }

  /** An unreadable first read comes first, then the first doubt of the second pass; observations are
      kept exactly when a read raised one of them. */
  lemma DiagnosisMeans(why: Option<Diagnostic>, offences: seq<Offence>, parts: Parts, rootPgid: int)
    requires Diagnosed(why, offences, parts, rootPgid) && !RejectedFirst(parts.reads1)
    ensures Explained(why, parts, rootPgid)
    ensures offences != [] <==> why.Some? && why.value.stage == GroupMember
  {
    FirstFindingsMean(parts.reads1);
    if Scanned(parts.table1) && Scanned(parts.table2) {
      var t :| SecondView(parts, rootPgid, t) && Found(why, offences, parts, t);
      SecondFindingsMean(parts.reads1, t, parts.reads2);
      MergeEmptyIff(Then(FirstFindings(parts.reads1), SecondFindings(parts.reads1, t, parts.reads2)).offences);
    } else if Scanned(parts.table1) && parts.table2 == [] {
      MergeEmptyIff(FirstFindings(parts.reads1).offences);
    }
  }

  class RootBoundAdmission {
    const rootPid: int
    const rootPgid: int
    const root: Option<Identity>
    var closed: bool
    /** History: another thread closed admission. */
    ghost var shut: bool

    /** How admission is opened: a bound root is the process itself, in the root group. */
    ghost predicate Bound() {
      root.Some? ==> root.value.pid == rootPid && root.value.pgid == rootPgid
    }

    constructor (rootPid: int, rootPgid: int, root: Option<Identity>)
      ensures this.rootPid == rootPid && this.rootPgid == rootPgid && this.root == root && !closed && !shut
    {
      this.rootPid, this.rootPgid, this.root := rootPid, rootPgid, root;
      closed, shut := false, false;
    }

    method Close()
      modifies this`closed
      ensures closed
    {
      closed := true;
    }

    /** Another thread may close admission at any time; nobody reopens it. */
    method OthersMayClose()
      modifies this
      ensures old(closed) ==> closed
      ensures old(shut) ==> shut
      ensures closed ==> old(closed) || shut
    {
      if * { closed, shut := true, true; }
    }

    method RootAllowsAdmission(os: Os) returns (allowed: bool, ghost seg: seq<Event>)
      modifies this, os
      ensures os.trace == old(os.trace) + seg && NoSignals(seg)
      ensures old(closed) ==> closed && !allowed && seg == []
      ensures allowed ==> root.Some? && RootAlive(seg, root.value) && !closed
      ensures !allowed ==> closed || root.None?
      ensures old(shut) ==> shut
      ensures !old(closed) && root.Some? && Bound() ==> RootAlive(seg, root.value) || RootGone(seg, root.value)
      ensures closed ==> old(closed) || shut || (root.Some? && (Bound() ==> RootGone(seg, root.value)))
    {
      allowed, seg := false, [];
      if closed || root.None? { return; }
      var answer := os.Poll();
      seg := [Polled(answer)];
      if answer != StillRunning {
        Close();
        return;
      }
      var obs := os.ReadProcess(RootCheck, rootPid);
      seg := seg + [Read(RootCheck, rootPid, obs)];
      if !(RunsAs(obs, root.value) && rootPid == root.value.pid && obs.value.pgid == root.value.pgid) {
        Close();
        return;
      }
      OthersMayClose();
      allowed := !closed;
    }

    function RootMap(): map<int, Identity> { if root.Some? then map[rootPid := root.value] else map[] }

    function Roots(): seq<Identity> { if root.Some? then [root.value] else [] }

    /** The root numbers are tracked, and what was collected stays inside the tracked numbers. */
    ghost predicate Tracks(p: Progress) { rootPid in p.pids && rootPgid in p.groups && Kept(p) }

    function Start(): (p: Progress)
      ensures Bound() ==> Tracks(p)
      ensures p.observed.Keys == RootKeys(root) && p.pidGroups == {(rootPid, rootPgid)}
    {
      Progress({rootPid}, {rootPgid}, {(rootPid, rootPgid)},
               if root.Some? then map[KeyOf(root.value) := root.value] else map[], [], None, [])
    }

    method ScanTree(os: Os, from: Option<int>) returns (t: Option<TreeScan>, ghost seg: seq<Event>)
      modifies os
      ensures os.trace == old(os.trace) + seg && NoSignals(seg)
      ensures ScanOf(seg, from, Some(rootPgid), t)
    {
      var answer := os.ReadIdentityTable();
      seg := [if answer.Some? then IdentityTable(answer.value.0, answer.value.1) else TableFailed];
      t := None;
      if answer.Some? {
        var scan := SnapshotTree(answer.value.0, answer.value.1, from, Some(rootPgid));
        t := Some(scan);
      }
    }

    /** The scope carries everything that was collected. */
    ghost predicate Holds(scope: Scope, p: Progress) {
      && scope.trackedPids == p.pids && scope.trackedPgids == p.groups
      && scope.diagnostic == p.why && scope.offences == Merge(p.offences)
      && Remembers(scope, p.pidGroups, p.observed.Keys)
    }

    lemma ValuesRemember(observed: map<ObservedKey, Identity>, values: seq<Identity>, pids: set<int>, groups: set<int>)
      requires Inside(observed, pids, groups) && forall id :: id in values <==> id in observed.Values
      ensures forall id :: id in values ==> KeyOf(id) in observed.Keys
      ensures forall k :: k in observed.Keys ==> exists id :: id in values && KeyOf(id) == k
    {
      forall k | k in observed.Keys ensures exists id :: id in values && KeyOf(id) == k {
        assert observed[k] in observed.Values;
      }
    }

    /** Every scope that is built passes its own checks. */
    method BuildScope(identities: seq<Identity>, p: Progress) returns (scope: Scope)
      requires Tracks(p) && DistinctPids(identities)
      ensures SoundScope(scope) && scope.identities == identities && Holds(scope, p)
    {
      var observed := Values(p.observed);
      var merged := MergeObservations(p.offences);
      MergeKeepsWitness(p.why, p.offences);
      MergeKeepsValidity(p.offences);
      ValuesRemember(p.observed, observed, p.pids, p.groups);
      scope := Scope(identities, p.pids, p.groups, if p.why.Some? then CoverageUnknown else CoverageComplete,
                     p.pidGroups, observed, p.why, merged);
    }

    /** After admission is closed the scan can extend the tracked numbers and nothing else. */
    method DetectionScope(os: Os) returns (scope: Scope, ghost seg: seq<Event>)
      requires Bound()
      modifies os
      ensures os.trace == old(os.trace) + seg && NoSignals(seg)
      ensures SoundScope(scope) && scope.identities == Roots()
      ensures ScopeFrom(scope, Parts([], seg, [], [], [], [], [], None), rootPid, rootPgid)
      ensures Remembers(scope, {(rootPid, rootPgid)}, RootKeys(root))
    {
      var p := Start();
      var t, table := ScanTree(os, None);
      seg := table;
      FirstNumbers(table, None, t, Parts([], table, [], [], [], [], [], None));
      if t.Some? { p := p.(pids := p.pids + t.value.pids, groups := p.groups + t.value.pgids); }
      var failed := t.None? || t.value.coverage == CoverageUnknown;
      var why := if failed then Some(Diagnostic(FirstSnapshot, SnapshotFailure)) else None;
      scope := BuildScope(Roots(), p.(why := why));
    }

    static function ScanPids(t: Option<TreeScan>): set<int> { if t.Some? then t.value.pids else {} }

    static function ScanGroups(t: Option<TreeScan>): set<int> { if t.Some? then t.value.pgids else {} }

    lemma FirstNumbers(table: seq<Event>, from: Option<int>, t: Option<TreeScan>, parts: Parts)
      requires ScanOf(table, from, Some(rootPgid), t) && parts.table1 == table && parts.table2 == []
        && parts.from == from
      ensures NumbersFrom({rootPid} + ScanPids(t), {rootPgid} + ScanGroups(t), parts, rootPid, rootPgid)
      ensures Scanned(table) <==> t.Some? && t.value.coverage == CoverageComplete
    {
      ScanNumbers(table, from, Some(rootPgid), t);
    }

    /** A failed table read or an incomplete table ends the capture and closes admission. */
    method SnapshotFailed(p: Progress, stage: Stage) returns (scope: Scope)
      requires Tracks(p) && stage in {FirstSnapshot, SecondSnapshot}
      modifies this`closed
      ensures closed
      ensures SoundScope(scope) && scope.identities == Roots()
      ensures Holds(scope, p.(why := Some(Diagnostic(stage, SnapshotFailure)), offences := []))
    {
      Close();
      scope := BuildScope(Roots(), p.(why := Some(Diagnostic(stage, SnapshotFailure)), offences := []));
    }

    static function WithTree(p: Progress, t: TreeScan): Progress {
      p.(pids := p.pids + t.pids, groups := p.groups + t.pgids)
    }

    /** The bindings and same-row identities of a scan are trusted only after a live-root check. */
    method Trust(p: Progress, t: TreeScan, ghost rows: seq<Row>, ghost complete: bool) returns (q: Progress)
      requires Tracks(p) && t.pids <= p.pids && t.pgids <= p.groups
      requires IsTree(rows, complete, Some(rootPid), Some(rootPgid), t)
      ensures Tracks(q)
      ensures q == p.(pidGroups := p.pidGroups + t.pidGroups, observed := q.observed)
      ensures q.observed.Keys == p.observed.Keys + TreeKeys(t)
    {
      TreeIsGroupClosed(rows, complete, Some(rootPid), Some(rootPgid), t);
      var observed := p.observed;
      for n := 0 to |t.identities|
        invariant Inside(observed, p.pids, p.groups)
        invariant observed.Keys == p.observed.Keys + set id | id in t.identities[..n] :: KeyOf(id)
      {
        var id := t.identities[n];
        assert id in t.identities && t.identities[..n + 1] == t.identities[..n] + [id];
        observed := observed[KeyOf(id) := id];
      }
      assert t.identities[..|t.identities|] == t.identities;
      q := p.(pidGroups := p.pidGroups + t.pidGroups, observed := observed);
    }

    /** A result that admits nothing but the root. */
    ghost predicate RootOnly(scope: Scope) { SoundScope(scope) && scope.identities == Roots() }

    /** The processes seen are the readable reads after a complete scan that lists them all. */
    ghost predicate Looked(rows: seq<Row>, table: seq<Event>, looks: seq<Event>, seen: seq<Observation>) {
      && table == [IdentityTable(rows, true)]
      && (forall o :: o in seen ==> InTree(rows, Some(rootPid), Some(rootPgid), o.pid))
      && (forall o :: o in seen <==> SeenFirst(o, looks))
      && (forall i, j :: 0 <= i < j < |seen| ==> seen[i].pid != seen[j].pid)
    }

    /** The first scan and the reads of everything in it. `early` holds a result that ends the
        capture, None inside it standing for an exception. */
    method FirstLook(os: Os)
      returns (early: Option<Option<Scope>>, p: Progress, t: TreeScan,
               ghost rows: seq<Row>, ghost table: seq<Event>, ghost looks: seq<Event>)
      requires Bound()
      modifies this, os
      ensures os.trace == old(os.trace) + table + looks && NoSignals(table + looks)
      ensures old(closed) ==> closed
      ensures old(shut) ==> shut
      ensures closed ==> old(closed) || shut || !Scanned(table)
      ensures early.Some? && early.value.Some? ==> closed && RootOnly(early.value.value)
      ensures early.Some? && early.value.Some? ==>
        !Scanned(table)
          && ScopeFrom(early.value.value, Parts([], table, looks, [], [], [], [], Some(rootPid)), rootPid, rootPgid)
      ensures early.Some? && early.value.Some? ==> Remembers(early.value.value, {(rootPid, rootPgid)}, RootKeys(root))
      ensures early == Some(None) <==> RejectedFirst(looks)
      ensures early.None? ==> FirstMemory(p, looks, t) && p.groups == {rootPgid} + t.pgids
      ensures early.None? ==> LookedAll(p, Parts([], table, looks, [], [], [], [], Some(rootPid)))
      ensures early.None? ==>
        && Tracks(p) && t.pids <= p.pids && t.pgids <= p.groups && SeenTracked(p)
        && IsTree(rows, true, Some(rootPid), Some(rootPgid), t) && Looked(rows, table, looks, p.seen)
    {
      p := Start();
      var scan, table1 := ScanTree(os, Some(rootPid));
      table, looks, rows := table1, [], [];
      FirstNumbers(table, Some(rootPid), scan, Parts([], table, [], [], [], [], [], Some(rootPid)));
      if scan.None? || scan.value.coverage == CoverageUnknown {
        var scope := SnapshotFailed(if scan.Some? then WithTree(p, scan.value) else p, FirstSnapshot);
        early, t := Some(Some(scope)), TreeScan({}, {}, CoverageUnknown, {}, []);
        return;
      }
      t := scan.value;
      ghost var listed, complete :| table == [IdentityTable(listed, complete)]
        && IsTree(listed, complete, Some(rootPid), Some(rootPgid), t);
      rows := listed;
      OthersMayClose();
      var done, looks1 := FirstReads(os, WithTree(p, t), t.pids);
      looks := looks1;
      OthersMayClose();
      if done.None? { early := Some(None); return; }
      p, early := done.value, None;
      AllSeen(p, t, rows, table, looks);
    }

    /** The pairs and the observed identities after the first pass. */
    ghost predicate FirstMemory(p: Progress, looks: seq<Event>, t: TreeScan) {
      && p.pidGroups == {(rootPid, rootPgid)}
      && p.observed.Keys == RootKeys(root) + ReadKeys(looks, t.pids, {rootPgid} + t.pgids)
    }

    lemma AllSeen(p: Progress, t: TreeScan, rows: seq<Row>, table: seq<Event>, looks: seq<Event>)
      requires FirstPassSoFar(p, Sorted(t.pids), looks) && t.pids <= p.pids
      requires table == [IdentityTable(rows, true)] && IsTree(rows, true, Some(rootPid), Some(rootPgid), t)
      requires p.pids == {rootPid} + t.pids && p.groups == {rootPgid} + t.pgids
      ensures Looked(rows, table, looks, p.seen) && SeenTracked(p)
      ensures LookedAll(p, Parts([], table, looks, [], [], [], [], Some(rootPid)))
    {
      FirstNumbers(table, Some(rootPid), Some(t), Parts([], table, looks, [], [], [], [], Some(rootPid)));
      ScanNumbers(table, Some(rootPid), Some(rootPgid), Some(t));
      forall o | o in p.seen ensures InTree(rows, Some(rootPid), Some(rootPgid), o.pid) && o.pid in p.pids {
        assert o.pid in Sorted(t.pids);
      }
      assert forall pid :: pid in t.pids ==> pid in Sorted(t.pids);
    }

    /** After the first pass: every process of the first scan was read, and the progress is what was found. */
    ghost predicate LookedAll(p: Progress, parts: Parts) {
      && Scanned(parts.table1) && NumbersFrom(p.pids, p.groups, parts, rootPid, rootPgid)
      && (forall pid :: InScan(parts.table1, parts.from, Some(rootPgid), pid) ==> WasRead(parts.reads1, FirstPass, pid))
      && FirstFindings(parts.reads1) == Findings(p.why, p.offences, false)
      && (forall o :: o in p.seen ==> SightOf(parts.reads1, o.pid) == Some(o))
    }

    ghost predicate SeenTracked(p: Progress) { forall o :: o in p.seen ==> o.pid in p.pids }

    lemma Regrouped(start: seq<Event>, a: seq<Event>, b: seq<Event>, c: seq<Event>, d: seq<Event>, from: Option<int>)
      ensures start + a + b + c + d == start + Parts(a, b, c, d, [], [], [], from).Flat()
      ensures Parts(a, b, c, d, [], [], [], from).Flat() == a + (b + c) + d == a + b + c + d
      ensures start + a + b + c == start + (a + b + c) && (a + (b + c)) + [] == a + (b + c)
    {}

    /** After the second live-root check the first scan is trusted. */
    ghost predicate TrustedMemory(p: Progress, parts: Parts) {
      exists t :: FirstView(parts, rootPgid, t)
        && p.groups == {rootPgid} + t.pgids && p.pidGroups == {(rootPid, rootPgid)} + t.pidGroups
        && p.observed.Keys == FirstKeys(parts, root, rootPgid, t) + TreeKeys(t)
    }

    /** What closes admission besides other threads: a root that is gone, or a scan that failed. */
    ghost predicate Stopped(parts: Parts) {
      && root.Some?
      && (|| RootGone(parts.check1, root.value) || RootGone(parts.check2, root.value)
          || RootGone(parts.check3, root.value)
          || (parts.from.Some? && (!Scanned(parts.table1) || (parts.table2 != [] && !Scanned(parts.table2)))))
    }

    /** Up to the second live-root check. */
    method FirstHalf(os: Os)
      returns (early: Option<Option<Scope>>, p: Progress, ghost rows: seq<Row>, ghost parts: Parts,
               ghost seg: seq<Event>)
      requires Bound()
      modifies this, os
      ensures os.trace == old(os.trace) + seg && NoSignals(seg)
      ensures old(closed) ==> closed && early.Some? && early.value.Some?
      ensures early.Some? && early.value.Some? ==> (closed || root.None?) && RootOnly(early.value.value)
      ensures early.Some? && early.value.Some? ==> ScopeFrom(early.value.value, parts, rootPid, rootPgid)
      ensures early.Some? && early.value.Some? ==> HistoryFrom(early.value.value, parts, root, rootPid, rootPgid, false)
      ensures early.None? ==> LookedAll(p, parts) && parts.from == Some(rootPid)
      ensures early.None? ==> TrustedMemory(p, parts)
      ensures Paced(parts, root, rootPid, rootPgid) && (old(shut) ==> shut)
      ensures closed ==> old(closed) || shut || Stopped(parts)
      ensures seg == parts.Flat() && parts.table2 == [] && parts.reads2 == []
      ensures early == Some(None) <==> RejectedFirst(parts.reads1)
      ensures early.None? ==>
        && Tracks(p) && SeenTracked(p) && root.Some?
        && parts.check3 == [] && RootAlive(parts.check1, root.value) && RootAlive(parts.check2, root.value)
        && Looked(rows, parts.table1, parts.reads1, p.seen)
    {
      rows := [];
      var allowed, check1 := RootAllowsAdmission(os);
      if !allowed {
        p := Start();
        var scope, table := DetectionScope(os);
        NoSignalsConcat(check1, table);
        parts := Parts(check1, table, [], [], [], [], [], None);
        seg := parts.Flat();
        Regrouped(old(os.trace), check1, table, [], [], None);
        UnscannedHistory(scope, parts);
        early := Some(Some(scope));
        return;
      }
      var ended, progress, t, rows1, table1, reads1 := FirstLook(os);
      early, p, rows := ended, progress, rows1;
      parts := Parts(check1, table1, reads1, [], [], [], [], Some(rootPid));
      seg := parts.Flat();
      NoSignalsConcat(check1, table1 + reads1);
      Regrouped(old(os.trace), check1, table1, reads1, [], Some(rootPid));
      if early.Some? {
        if early.value.Some? { UnscannedHistory(early.value.value, parts); }
        return;
      }
      var still, check2 := RootAllowsAdmission(os);
      NoSignalsConcat(seg, check2);
      Regrouped(old(os.trace), check1, table1, reads1, check2, Some(rootPid));
      parts := parts.(check2 := check2);
      seg := parts.Flat();
      if !still {
        var scope := BuildScope(Roots(), p);
        early := Some(Some(scope));
        UntrustedHistory(scope, p, parts, rows, t);
        return;
      }
      ghost var before := p;
      p := Trust(p, t, rows, true);
      TrustedFrom(before, p, parts, rows, t);
    }

    lemma UnscannedHistory(scope: Scope, parts: Parts)
      requires parts.from.None? || !Scanned(parts.table1)
      requires Remembers(scope, {(rootPid, rootPgid)}, RootKeys(root))
      ensures HistoryFrom(scope, parts, root, rootPid, rootPgid, false)
    {}

    lemma UntrustedHistory(scope: Scope, p: Progress, parts: Parts, rows: seq<Row>, t: TreeScan)
      requires parts.from == Some(rootPid) && parts.table2 == []
      requires parts.table1 == [IdentityTable(rows, true)] && IsTree(rows, true, Some(rootPid), Some(rootPgid), t)
      requires FirstMemory(p, parts.reads1, t) && Remembers(scope, p.pidGroups, p.observed.Keys)
      ensures HistoryFrom(scope, parts, root, rootPid, rootPgid, false)
    {
      assert FirstView(parts, rootPgid, t) && HistoryAfter(scope, parts, root, rootPid, rootPgid, false, t);
    }

    lemma TrustedFrom(p: Progress, q: Progress, parts: Parts, rows: seq<Row>, t: TreeScan)
      requires parts.from == Some(rootPid) && p.groups == {rootPgid} + t.pgids
      requires parts.table1 == [IdentityTable(rows, true)] && IsTree(rows, true, Some(rootPid), Some(rootPgid), t)
      requires FirstMemory(p, parts.reads1, t)
      requires q.groups == p.groups && q.pidGroups == p.pidGroups + t.pidGroups
      requires q.observed.Keys == p.observed.Keys + TreeKeys(t)
      ensures TrustedMemory(q, parts)
    {
      assert FirstView(parts, rootPgid, t);
    }

    /** The second scan lists the process and its group, and a second read agrees with the first. */
    ghost predicate FoundAgain(id: Identity, rows: seq<Row>, table: seq<Event>, looks: seq<Event>,
                               seen: seq<Observation>)
    {
      && table == [IdentityTable(rows, true)]
      && InTree(rows, Some(rootPid), Some(rootPgid), id.pid)
      && ReachedGroup(rows, Some(rootPid), Some(rootPgid), id.pgid)
      && (exists o :: o in seen && IdentityOf(o) == id)
      && ReadTwice(id, looks)
    }

    ghost predicate FoundEach(scope: Scope, open: bool, rows: seq<Row>, table: seq<Event>, looks: seq<Event>,
                              check: seq<Event>, seen: seq<Observation>)
    {
      && (forall id :: id in scope.identities ==>
            id in Roots() || (root.Some? && RootAlive(check, root.value) && FoundAgain(id, rows, table, looks, seen)))
      && (open ==>
            && root.Some? && RootAlive(check, root.value) && table == [IdentityTable(rows, true)]
            && forall id :: FoundAgain(id, rows, table, looks, seen) ==> id in scope.identities)
    }

    /** After a complete second scan, a second read of a process in its tree cannot be recorded. */
    ghost predicate SecondRejects(seen: seq<Observation>, table: seq<Event>, looks: seq<Event>) {
      exists rows, t ::
        && table == [IdentityTable(rows, true)] && IsTree(rows, true, Some(rootPid), Some(rootPgid), t)
        && RejectedSecond(seen, t, looks)
    }

    lemma SameTree(seen: seq<Observation>, rows: seq<Row>, table: seq<Event>, t: TreeScan, looks: seq<Event>)
      requires table == [IdentityTable(rows, true)] && IsTree(rows, true, Some(rootPid), Some(rootPgid), t)
      ensures SecondRejects(seen, table, looks) <==> RejectedSecond(seen, t, looks)
    {
      if SecondRejects(seen, table, looks) {
        var others, u :| table == [IdentityTable(others, true)]
          && IsTree(others, true, Some(rootPid), Some(rootPgid), u)
          && RejectedSecond(seen, u, looks);
        assert table[0] == IdentityTable(others, true);
        TreeIsUnique(rows, true, Some(rootPid), Some(rootPgid), t, u);
      }
    }

    lemma Reassociated(start: seq<Event>, a: seq<Event>, b: seq<Event>, c: seq<Event>)
      ensures start + a + (b + c) == start + (a + b + c) && a + b + c == a + (b + c)
    {}

    /** The second scan, the reads after it and the last live-root check. */
    method SecondHalf(os: Os, start: Progress, ghost firsts: seq<Event>)
      returns (result: Option<Scope>, ghost rows: seq<Row>, ghost table: seq<Event>, ghost looks: seq<Event>,
               ghost check: seq<Event>)
      requires Bound() && root.Some? && Tracks(start) && SeenTracked(start)
      requires forall i, j :: 0 <= i < j < |start.seen| ==> start.seen[i].pid != start.seen[j].pid
      requires forall o :: o in start.seen ==> SightOf(firsts, o.pid) == Some(o)
      modifies this, os
      ensures os.trace == old(os.trace) + (table + looks + check) && NoSignals(table + looks + check)
      ensures old(closed) ==> closed
      ensures old(shut) ==> shut
      ensures closed ==> old(closed) || shut || !Scanned(table) || RootGone(check, root.value)
      ensures table != [] && (result.Some? ==> SecondScope(result.value, start, firsts, table, looks))
      ensures result.Some? ==> SecondMemory(result.value, start, table, looks, check, !closed)
      ensures result.Some? ==>
        SoundScope(result.value) && FoundEach(result.value, !closed, rows, table, looks, check, start.seen)
      ensures result.None? <==> SecondRejects(start.seen, table, looks)
    {
      var p := start;
      var scan, table2 := ScanTree(os, Some(rootPid));
      table, looks, check, rows := table2, [], [], [];
      ScanNumbers(table, Some(rootPid), Some(rootPgid), scan);
      if scan.None? || scan.value.coverage == CoverageUnknown {
        var q := if scan.Some? then WithTree(p, scan.value) else p;
        var scope := SnapshotFailed(q, SecondSnapshot);
        result := Some(scope);
        return;
      }
      ghost var listed, complete :| table == [IdentityTable(listed, complete)]
        && IsTree(listed, complete, Some(rootPid), Some(rootPgid), scan.value);
      rows := listed;
      var outcome, looks2, check2 := AfterSecondScan(os, WithTree(p, scan.value), scan.value, rows, table, firsts);
      result, looks, check := outcome, looks2, check2;
      NoSignalsConcat(table, looks + check);
      SameTree(start.seen, rows, table, scan.value, looks);
      Reassociated(old(os.trace), table, looks, check);
      if result.Some? {
        SecondScopeFrom(result.value, start, firsts, rows, scan.value, table, looks);
        assert SecondMemory(result.value, start, table, looks, check, !closed);
      }
    }

    lemma SecondScopeFrom(scope: Scope, start: Progress, firsts: seq<Event>, rows: seq<Row>, t: TreeScan,
                          table: seq<Event>, looks: seq<Event>)
      requires table == [IdentityTable(rows, true)] && IsTree(rows, true, Some(rootPid), Some(rootPgid), t)
      requires scope.trackedPids == start.pids + t.pids && scope.trackedPgids == start.groups + t.pgids
      requires SecondLooked(start, firsts, t, looks) && AddedTo(scope, start, SecondFindings(firsts, t, looks))
      ensures SecondScope(scope, start, firsts, table, looks)
    {
      ScanNumbers(table, Some(rootPid), Some(rootPgid), Some(t));
    }

    /** The scope of a capture that got to its second scan. */
    ghost predicate SecondScope(scope: Scope, start: Progress, firsts: seq<Event>, table: seq<Event>,
                                looks: seq<Event>)
    {
      && (forall pid :: pid in scope.trackedPids <==>
          pid in start.pids || InScan(table, Some(rootPid), Some(rootPgid), pid))
      && (forall g :: g in scope.trackedPgids <==>
          g in start.groups || GroupInScan(table, Some(rootPid), Some(rootPgid), g))
      && (if !Scanned(table)
          then scope.diagnostic == Some(Diagnostic(SecondSnapshot, SnapshotFailure)) && scope.offences == []
          else exists rows, t ::
            && table == [IdentityTable(rows, true)] && IsTree(rows, true, Some(rootPid), Some(rootPgid), t)
            && SecondLooked(start, firsts, t, looks) && AddedTo(scope, start, SecondFindings(firsts, t, looks)))
    }

    /** The pairs and the observed identities of a capture that got to its second scan. */
    ghost predicate SecondMemory(scope: Scope, start: Progress, table: seq<Event>, looks: seq<Event>, check: seq<Event>,
                                 open: bool)
    {
      if !Scanned(table) then Remembers(scope, start.pidGroups, start.observed.Keys)
      else exists rows, u ::
        && table == [IdentityTable(rows, true)] && IsTree(rows, true, Some(rootPid), Some(rootPgid), u)
        && HistoryInFull(scope, start.pidGroups, start.observed.Keys + ReadKeys(looks, u.pids, start.groups + u.pgids),
                         u, root.Some? && RootAlive(check, root.value), open)
    }

    ghost predicate AddedTo(scope: Scope, start: Progress, f: Findings) {
      !f.rejected && scope.diagnostic == Or(start.why, f.why) && scope.offences == Merge(start.offences + f.offences)
    }

    /** Every process of the first pass was read again, and so was every one that only the second scan lists. */
    ghost predicate SecondLooked(start: Progress, firsts: seq<Event>, t: TreeScan, looks: seq<Event>) {
      && (forall o :: o in start.seen ==> WasRead(looks, SecondPass, o.pid))
      && (forall pid :: pid in t.pids && SightOf(firsts, pid).None? ==> WasRead(looks, SecondExtra, pid))
    }

    method AfterSecondScan(os: Os, p: Progress, t: TreeScan, ghost rows: seq<Row>, ghost table: seq<Event>,
                           ghost firsts: seq<Event>)
      returns (result: Option<Scope>, ghost looks: seq<Event>, ghost check: seq<Event>)
      requires Bound() && root.Some? && Tracks(p) && SeenTracked(p) && t.pids <= p.pids && t.pgids <= p.groups
      requires forall i, j :: 0 <= i < j < |p.seen| ==> p.seen[i].pid != p.seen[j].pid
      requires table == [IdentityTable(rows, true)] && IsTree(rows, true, Some(rootPid), Some(rootPgid), t)
      requires forall o :: o in p.seen ==> SightOf(firsts, o.pid) == Some(o)
      modifies this, os
      ensures os.trace == old(os.trace) + (looks + check) && NoSignals(looks + check)
      ensures old(closed) ==> closed
      ensures old(shut) ==> shut
      ensures closed ==> old(closed) || shut || RootGone(check, root.value)
      ensures result.Some? ==> result.value.trackedPids == p.pids && result.value.trackedPgids == p.groups
      ensures result.Some? ==>
        HistoryInFull(result.value, p.pidGroups, p.observed.Keys + ReadKeys(looks, t.pids, p.groups), t,
                      RootAlive(check, root.value), !closed)
      ensures result.Some? ==>
        SecondLooked(p, firsts, t, looks) && AddedTo(result.value, p, SecondFindings(firsts, t, looks))
      ensures result.Some? ==>
        SoundScope(result.value) && FoundEach(result.value, !closed, rows, table, looks, check, p.seen)
      ensures result.None? <==> RejectedSecond(p.seen, t, looks)
    {
      var done, looks2 := SecondLook(os, p, t, firsts);
      looks, check, result := looks2, [], None;
      if done.None? { return; }
      OthersMayClose();
      var scope, check3 := Decide(os, done.value.0, t, rows, done.value.1);
      check := check3;
      TraceJoin(old(os.trace), looks, check);
      NoSignalsConcat(looks, check);
      FoundEachFrom(scope, done.value.1, !closed, rows, table, t, looks, check, p.seen);
      result := Some(scope);
    }

    lemma FoundEachFrom(scope: Scope, confirmed: map<int, Identity>, open: bool, rows: seq<Row>, table: seq<Event>,
                        t: TreeScan,
                        looks: seq<Event>, check: seq<Event>, seen: seq<Observation>)
      requires table == [IdentityTable(rows, true)] && IsTree(rows, true, Some(rootPid), Some(rootPgid), t)
      requires forall pid :: pid in confirmed ==> FoundOrRoot(confirmed[pid], pid, t, looks, seen)
      requires forall o :: o in seen && o.pid in t.pids && o.pgid in t.pgids && ReadTwice(IdentityOf(o), looks) ==>
        o.pid in confirmed && confirmed[o.pid] == IdentityOf(o)
      requires if open then root.Some? && RootAlive(check, root.value) && Lists(scope, confirmed)
        else scope.identities == Roots()
      ensures FoundEach(scope, open, rows, table, looks, check, seen)
    {
      forall id | FoundAgain(id, rows, table, looks, seen) && open ensures id in scope.identities {
        var o :| o in seen && IdentityOf(o) == id;
        assert confirmed[o.pid] == id;
      }
      forall id | id in scope.identities && id !in Roots()
        ensures root.Some? && RootAlive(check, root.value) && FoundAgain(id, rows, table, looks, seen)
      {
        assert FoundOrRoot(confirmed[id.pid], id.pid, t, looks, seen);
      }
    }

    ghost predicate Lists(scope: Scope, confirmed: map<int, Identity>) {
      forall id :: id in scope.identities <==> id.pid in confirmed && confirmed[id.pid] == id
    }

    ghost predicate FoundOrRoot(id: Identity, pid: int, t: TreeScan, looks: seq<Event>, seen: seq<Observation>) {
      && id.pid == pid
      && (|| id in Roots()
          || (&& id.pid in t.pids && id.pgid in t.pgids
              && (exists o :: o in seen && IdentityOf(o) == id) && ReadTwice(id, looks)))
    }

    /** The last live-root check decides whether anything but the root is admitted. */
    method Decide(os: Os, q: Progress, t: TreeScan, ghost rows: seq<Row>, confirmed: map<int, Identity>)
      returns (scope: Scope, ghost check: seq<Event>)
      requires Bound() && root.Some? && Tracks(q) && t.pids <= q.pids && t.pgids <= q.groups
      requires IsTree(rows, true, Some(rootPid), Some(rootPgid), t)
      requires forall pid :: pid in confirmed ==> confirmed[pid].pid == pid
      modifies this, os
      ensures os.trace == old(os.trace) + check && NoSignals(check)
      ensures old(closed) ==> closed
      ensures old(shut) ==> shut
      ensures closed && root.Some? ==> old(closed) || shut || RootGone(check, root.value)
      ensures SoundScope(scope) && scope.trackedPids == q.pids && scope.trackedPgids == q.groups
      ensures scope.diagnostic == q.why && scope.offences == Merge(q.offences)
      ensures HistoryInFull(scope, q.pidGroups, q.observed.Keys, t, root.Some? && RootAlive(check, root.value), !closed)
      ensures if closed || root.None? then scope.identities == Roots()
              else RootAlive(check, root.value) && Lists(scope, confirmed)
    {
      var still, check3 := RootAllowsAdmission(os);
      check := check3;
      if still {
        var p := Trust(q, t, rows, true);
        var identities := InPidOrder(confirmed, confirmed.Keys);
        scope := BuildScope(identities, p);
      } else {
        scope := BuildScope(Roots(), q);
      }
    }

    method SecondLook(os: Os, p: Progress, t: TreeScan, ghost firsts: seq<Event>)
      returns (done: Option<(Progress, map<int, Identity>)>, ghost looks: seq<Event>)
      requires Bound() && Tracks(p) && SeenTracked(p) && t.pids <= p.pids && t.pgids <= p.groups
      requires forall i, j :: 0 <= i < j < |p.seen| ==> p.seen[i].pid != p.seen[j].pid
      requires forall o :: o in p.seen ==> SightOf(firsts, o.pid) == Some(o)
      modifies os
      ensures os.trace == old(os.trace) + looks && NoSignals(looks)
      ensures done.None? <==> RejectedSecond(p.seen, t, looks)
      ensures done.Some? ==>
        SecondLooked(p, firsts, t, looks) && AddsUp(p, done.value.0, SecondFindings(firsts, t, looks))
      ensures done.Some? ==> Saw(p, done.value.0, looks, t.pids)
      ensures done.Some? ==>
        && Tracks(done.value.0) && SameNumbers(p, done.value.0)
        && (forall pid :: pid in done.value.1 ==> FoundOrRoot(done.value.1[pid], pid, t, looks, p.seen))
        && (forall o :: o in p.seen && o.pid in t.pids && o.pgid in t.pgids && ReadTwice(IdentityOf(o), looks) ==>
              o.pid in done.value.1 && done.value.1[o.pid] == IdentityOf(o))
    {
      var firstPids := set o | o in p.seen :: o.pid;
      var q, newcomers := ReadNewcomers(os, p, t.pids - firstPids);
      var r, again := SecondReads(os, q, t, RootMap(), firsts);
      done := r;
      looks := newcomers + again;
      TraceJoin(old(os.trace), newcomers, again);
      assert forall e :: e in looks <==> e in newcomers || e in again;
      assert RejectedSecond(p.seen, t, looks) <==> RejectedSecond(p.seen, t, again);
      if done.Some? {
        AllConfirmed(done.value.1, p.seen, t, again, looks);
        NewcomersFindNothing(firsts, t, newcomers, again);
        LookedTwice(p, firsts, t, newcomers, again);
        SawBoth(p, q, done.value.0, newcomers, again, t.pids, t.pids - firstPids);
      }
    }

    lemma SawBoth(p: Progress, q: Progress, r: Progress, newcomers: seq<Event>, again: seq<Event>, pids: set<int>,
                  extra: set<int>)
      requires Saw(p, q, newcomers, extra) && Saw(q, r, again, pids) && q.groups == p.groups && extra <= pids
      requires forall e :: e in newcomers ==> e.Read? && e.pid in extra
      ensures Saw(p, r, newcomers + again, pids)
    {
      ReadKeysConcat(newcomers, again, pids, p.groups);
      assert ReadKeys(newcomers, pids, p.groups) == ReadKeys(newcomers, extra, p.groups);
    }

    lemma LookedTwice(p: Progress, firsts: seq<Event>, t: TreeScan, newcomers: seq<Event>, again: seq<Event>)
      requires forall o :: o in p.seen ==> SightOf(firsts, o.pid) == Some(o) && WasRead(again, SecondPass, o.pid)
      requires AllRead(newcomers, SecondExtra, t.pids - set o | o in p.seen :: o.pid)
      ensures SecondLooked(p, firsts, t, newcomers + again)
    {
      var looks := newcomers + again;
      assert forall site, pid :: WasRead(newcomers, site, pid) || WasRead(again, site, pid) ==>
        WasRead(looks, site, pid);
    }

    lemma AllConfirmed(confirmed: map<int, Identity>, seen: seq<Observation>, t: TreeScan, again: seq<Event>,
                       looks: seq<Event>)
      requires Bound() && ConfirmedExactly(confirmed, RootMap(), seen, t, again)
      requires forall e :: e in again ==> e in looks
      requires forall e :: e in looks && e !in again ==> e.Read? && e.site == SecondExtra
      ensures forall pid :: pid in confirmed ==> FoundOrRoot(confirmed[pid], pid, t, looks, seen)
      ensures forall o :: o in seen && o.pid in t.pids && o.pgid in t.pgids && ReadTwice(IdentityOf(o), looks) ==>
        o.pid in confirmed && confirmed[o.pid] == IdentityOf(o)
    {
      forall pid | pid in confirmed ensures FoundOrRoot(confirmed[pid], pid, t, looks, seen) {
        BackedIsFound(confirmed[pid], pid, seen, t, again, looks);
      }
      forall o | o in seen && o.pid in t.pids && o.pgid in t.pgids && ReadTwice(IdentityOf(o), looks)
        ensures Confirmed(o, t, again)
      {
        var obs :| Read(SecondPass, o.pid, Some(obs)) in looks && AgreesWith(obs, IdentityOf(o));
        assert Read(SecondPass, o.pid, Some(obs)) in again;
        assert Agrees(o, t, Some(obs));
      }
    }

    lemma BackedIsFound(id: Identity, pid: int, seen: seq<Observation>, t: TreeScan, again: seq<Event>,
                        looks: seq<Event>)
      requires Bound() && BackedBy(id, pid, RootMap(), seen, t, again)
      requires forall e :: e in again ==> e in looks
      ensures FoundOrRoot(id, pid, t, looks, seen)
    {
      if id !in Roots() {
        var o :| o in seen && IdentityOf(o) == id && Confirmed(o, t, again);
        var obs :| Read(SecondPass, o.pid, obs) in again && Agrees(o, t, obs);
        assert Read(SecondPass, o.pid, Some(obs.value)) in looks;
        assert AgreesWith(obs.value, id);
      }
    }

    /** A read that no record can express: an unreadable process in the first pass, or, after a
        complete second scan, a process of the first pass that is in its tree (see SecondReadRejected). */
    ghost predicate CaptureRejected(parts: Parts) {
      || RejectedFirst(parts.reads1)
      || exists rows, t, o, again ::
           && parts.table2 == [IdentityTable(rows, true)] && IsTree(rows, true, Some(rootPid), Some(rootPgid), t)
           && SeenFirst(o, parts.reads1) && o.pid in t.pids
           && Read(SecondPass, o.pid, again) in parts.reads2 && UnrecordableAgain(o, again, t.pgids)
    }

    /** Two root-bracketed snapshots; None stands for an exception. Every scope that is returned
        passes its own checks; everything it holds besides the root was admitted in full, and when
        admission is still open at the end everything that qualifies is in it. */
    method CaptureScope(os: Os) returns (result: Option<Scope>, ghost parts: Parts, ghost seg: seq<Event>)
      requires Bound()
      modifies this, os
      ensures os.trace == old(os.trace) + seg && NoSignals(seg) && seg == parts.Flat()
      ensures result.Some? ==> SoundScope(result.value)
      ensures result.Some? ==> forall id :: id in result.value.identities ==>
        id in Roots() || (root.Some? && Admitted(parts, root.value, id))
      ensures result.Some? && !closed && root.Some? ==>
        forall id :: Admitted(parts, root.value, id) ==> id in result.value.identities
      ensures old(closed) ==> closed && result.Some? && RootOnly(result.value)
      ensures result.None? <==> CaptureRejected(parts)
      ensures Paced(parts, root, rootPid, rootPgid)
      ensures result.Some? ==> ScopeFrom(result.value, parts, rootPid, rootPgid) && ReadAgain(parts, rootPgid)
      ensures result.Some? ==> HistoryFrom(result.value, parts, root, rootPid, rootPgid, !closed)
      ensures old(shut) ==> shut
      ensures closed ==> old(closed) || shut || Stopped(parts)
    {
      var early, p, rows1, half, first := FirstHalf(os);
      parts, seg := half, first;
      if early.Some? {
        result := early.value;
        return;
      }
      var outcome, rows2, table, looks, check := SecondHalf(os, p, half.reads1);
      result := outcome;
      NoSignalsConcat(seg, table + looks + check);
      seg := seg + (table + looks + check);
      parts := half.(table2 := table, reads2 := looks, check3 := check);
      Flattened(old(os.trace), half, table, looks, check);
      RejectedInWhole(parts, p.seen);
      if result.Some? {
        WholeCapture(result.value, !closed, parts, p.seen, rows1, rows2);
        WholeScope(result.value, p, half, parts);
        WholeHistory(result.value, p, half, parts, !closed);
      }
    }

    lemma WholeScope(scope: Scope, p: Progress, half: Parts, parts: Parts)
      requires LookedAll(p, half) && half.from == Some(rootPid) && half.table2 == []
      requires forall o :: o in p.seen <==> SeenFirst(o, half.reads1)
      requires parts == half.(table2 := parts.table2, reads2 := parts.reads2, check3 := parts.check3)
        && parts.table2 != []
      requires SecondScope(scope, p, half.reads1, parts.table2, parts.reads2)
      ensures ScopeFrom(scope, parts, rootPid, rootPgid) && ReadAgain(parts, rootPgid)
    {
      WholeNumbers(scope, p, half, parts);
      if Scanned(parts.table2) { WholeDiagnosis(scope, p, half, parts); }
    }

    lemma WholeHistory(scope: Scope, p: Progress, half: Parts, parts: Parts, open: bool)
      requires TrustedMemory(p, half) && half.from == Some(rootPid) && Scanned(half.table1)
      requires parts == half.(table2 := parts.table2, reads2 := parts.reads2, check3 := parts.check3)
        && parts.table2 != []
      requires SecondMemory(scope, p, parts.table2, parts.reads2, parts.check3, open)
      ensures HistoryFrom(scope, parts, root, rootPid, rootPgid, open)
    {
      var t :| FirstView(half, rootPgid, t)
        && p.groups == {rootPgid} + t.pgids && p.pidGroups == {(rootPid, rootPgid)} + t.pidGroups
        && p.observed.Keys == FirstKeys(half, root, rootPgid, t) + TreeKeys(t);
      assert FirstView(parts, rootPgid, t);
      if Scanned(parts.table2) { FullHistory(scope, p, parts, open, t); }
      assert HistoryAfter(scope, parts, root, rootPid, rootPgid, open, t);
    }

    lemma FullHistory(scope: Scope, p: Progress, parts: Parts, open: bool, t: TreeScan)
      requires p.groups == {rootPgid} + t.pgids && p.pidGroups == {(rootPid, rootPgid)} + t.pidGroups
      requires p.observed.Keys == FirstKeys(parts, root, rootPgid, t) + TreeKeys(t)
      requires parts.from == Some(rootPid) && Scanned(parts.table2)
      requires SecondMemory(scope, p, parts.table2, parts.reads2, parts.check3, open)
      ensures HistoryAfter(scope, parts, root, rootPid, rootPgid, open, t)
    {
      var rows, u :| parts.table2 == [IdentityTable(rows, true)] && IsTree(rows, true, Some(rootPid), Some(rootPgid), u)
        && HistoryInFull(scope, p.pidGroups, p.observed.Keys + ReadKeys(parts.reads2, u.pids, p.groups + u.pgids), u,
                         root.Some? && RootAlive(parts.check3, root.value), open);
      assert SecondView(parts, rootPgid, u);
      assert p.observed.Keys + ReadKeys(parts.reads2, u.pids, p.groups + u.pgids)
        == FirstKeys(parts, root, rootPgid, t) + SecondKeys(parts, rootPgid, t, u);
    }

    lemma WholeNumbers(scope: Scope, p: Progress, half: Parts, parts: Parts)
      requires NumbersFrom(p.pids, p.groups, half, rootPid, rootPgid) && half.from == Some(rootPid) && half.table2 == []
      requires parts == half.(table2 := parts.table2, reads2 := parts.reads2, check3 := parts.check3)
      requires SecondScope(scope, p, half.reads1, parts.table2, parts.reads2)
      ensures NumbersFrom(scope.trackedPids, scope.trackedPgids, parts, rootPid, rootPgid)
    {
      assert forall pid :: !InScan([], half.from, Some(rootPgid), pid);
      assert forall g :: !GroupInScan([], half.from, Some(rootPgid), g);
    }

    lemma WholeDiagnosis(scope: Scope, p: Progress, half: Parts, parts: Parts)
      requires FirstFindings(half.reads1) == Findings(p.why, p.offences, false) && half.from == Some(rootPid)
      requires Scanned(half.table1) && Scanned(parts.table2)
      requires forall o :: o in p.seen <==> SeenFirst(o, half.reads1)
      requires parts == half.(table2 := parts.table2, reads2 := parts.reads2, check3 := parts.check3)
      requires SecondScope(scope, p, half.reads1, parts.table2, parts.reads2)
      ensures Diagnosed(scope.diagnostic, scope.offences, parts, rootPgid) && ReadAgain(parts, rootPgid)
    {
      var rows, t :| parts.table2 == [IdentityTable(rows, true)] && IsTree(rows, true, Some(rootPid), Some(rootPgid), t)
        && SecondLooked(p, half.reads1, t, parts.reads2)
        && AddedTo(scope, p, SecondFindings(half.reads1, t, parts.reads2));
      assert SecondView(parts, rootPgid, t) && Found(scope.diagnostic, scope.offences, parts, t);
    }

    lemma Flattened(start: seq<Event>, half: Parts, table: seq<Event>, looks: seq<Event>, check: seq<Event>)
      requires half.table2 == half.reads2 == half.check3 == []
      ensures half.Flat() + (table + looks + check) == half.(table2 := table, reads2 := looks, check3 := check).Flat()
      ensures start + half.Flat() + (table + looks + check) == start + (half.Flat() + (table + looks + check))
    {}

    lemma WholeCapture(scope: Scope, open: bool, parts: Parts, seen: seq<Observation>, rows1: seq<Row>, rows2: seq<Row>)
      requires Bound() && root.Some?
      requires RootAlive(parts.check1, root.value) && RootAlive(parts.check2, root.value)
      requires Looked(rows1, parts.table1, parts.reads1, seen)
      requires FoundEach(scope, open, rows2, parts.table2, parts.reads2, parts.check3, seen)
      ensures forall id :: id in scope.identities ==> id in Roots() || Admitted(parts, root.value, id)
      ensures open ==> forall id :: Admitted(parts, root.value, id) ==> id in scope.identities
    {
      forall id | id in scope.identities && id !in Roots() ensures Admitted(parts, root.value, id) {
        BothHalves(parts, seen, rows1, rows2, id);
      }
      forall id | open && Admitted(parts, root.value, id) ensures id in scope.identities {
        BackToHalves(parts, seen, rows1, rows2, id);
      }
    }

    lemma RejectedInWhole(parts: Parts, seen: seq<Observation>)
      requires !RejectedFirst(parts.reads1)
      requires forall o :: o in seen <==> SeenFirst(o, parts.reads1)
      ensures CaptureRejected(parts) <==> SecondRejects(seen, parts.table2, parts.reads2)
    {
      if SecondRejects(seen, parts.table2, parts.reads2) {
        var rows, t :| parts.table2 == [IdentityTable(rows, true)]
          && IsTree(rows, true, Some(rootPid), Some(rootPgid), t)
          && RejectedSecond(seen, t, parts.reads2);
        var o, again :| o in seen && o.pid in t.pids && Read(SecondPass, o.pid, again) in parts.reads2
          && UnrecordableAgain(o, again, t.pgids);
        assert SeenFirst(o, parts.reads1);
      }
    }

    lemma BothHalves(parts: Parts, seen: seq<Observation>, rows1: seq<Row>, rows2: seq<Row>, id: Identity)
      requires Bound() && root.Some?
      requires RootAlive(parts.check1, root.value) && RootAlive(parts.check2, root.value)
        && RootAlive(parts.check3, root.value)
      requires Looked(rows1, parts.table1, parts.reads1, seen)
      requires FoundAgain(id, rows2, parts.table2, parts.reads2, seen)
      ensures Admitted(parts, root.value, id)
    {
      var o :| o in seen && IdentityOf(o) == id;
      assert InTree(rows1, Some(rootPid), Some(rootPgid), o.pid) && SeenFirst(o, parts.reads1);
    }

    lemma BackToHalves(parts: Parts, seen: seq<Observation>, rows1: seq<Row>, rows2: seq<Row>, id: Identity)
      requires Bound() && root.Some? && Admitted(parts, root.value, id)
      requires Looked(rows1, parts.table1, parts.reads1, seen) && parts.table2 == [IdentityTable(rows2, true)]
      ensures FoundAgain(id, rows2, parts.table2, parts.reads2, seen)
    {
      var o :| IdentityOf(o) == id && SeenFirst(o, parts.reads1);
      assert o in seen;
      var rows :| parts.table2 == [IdentityTable(rows, true)] && InTree(rows, Some(rootPid), Some(rootPgid), id.pid)
        && ReachedGroup(rows, Some(rootPid), Some(rootPgid), id.pgid);
      assert [IdentityTable(rows, true)][0] == [IdentityTable(rows2, true)][0];
    }
  }

  /** The process was read running in its own group. */
  predicate RunsInGroup(obs: Option<Observation>, pid: int, pgid: int) {
    obs.Some? && obs.value.state == Running && obs.value.pid == pid && obs.value.pgid == pgid
  }

  /** The root is bound exactly when it is polled alive, read running in its group, and the second poll
      works; it is the process just read. */
  ghost predicate OpenedOn(opening: seq<Event>, pid: int, pgid: int, root: Option<Identity>) {
    && |opening| >= 1 && opening[0].Polled?
    && (|opening| == 1 <==> opening[0].answer != StillRunning)
    && (|opening| > 1 ==>
          && opening[1].Read? && opening[1].site == OpenRoot && opening[1].pid == pid
          && (|opening| == 3 && opening[2].Polled? <==> RunsInGroup(opening[1].obs, pid, pgid)))
    && (root.Some? <==> |opening| == 3 && opening[2].Polled? && opening[2].answer != PollFailed)
    && (root.Some? ==> |opening| == 3 && root.value == IdentityOf(opening[1].obs.value) && root.value.birth != "")
  }

  /** Binds admission to one exact root process handle and birth. */
  method OpenAdmission(os: Os, pid: int, pgid: int) returns (a: RootBoundAdmission, ghost seg: seq<Event>)
    modifies os
    ensures fresh(a) && a.Bound() && a.rootPid == pid && a.rootPgid == pgid && !a.closed
    ensures os.trace == old(os.trace) + seg && NoSignals(seg)
    ensures OpenedOn(seg, pid, pgid, a.root) && !a.shut
  {
    var root: Option<Identity> := None;
    var answer := os.Poll();
    seg := [Polled(answer)];
    if answer == StillRunning {
      var obs := os.ReadProcess(OpenRoot, pid);
      seg := seg + [Read(OpenRoot, pid, obs)];
      if Readable(obs) && obs.value.pid == pid && obs.value.pgid == pgid && obs.value.state == Running {
        root := Some(IdentityOf(obs.value));
        var again := os.Poll();
        seg := seg + [Polled(again)];
        if again == PollFailed { root := None; }
      }
    }
    a := new RootBoundAdmission(pid, pgid, root);
  }
}
