/**
 One tree/group view of the process table: the root with all its descendants by parent links, the
 root group's members, and every member of a group reached that way.
 */
module ProcessTree {
  import opened Base
  import opened Processes

  datatype Row = Row(ppid: int, id: Identity)

  datatype TreeScan = TreeScan(
    pids: set<int>, pgids: set<int>, coverage: Coverage,
    pidGroups: set<(int, int)>, identities: seq<Identity>)

  // ---- what the table says ----

  predicate Child(rows: seq<Row>, parent: int, pid: int) {
    exists r :: r in rows && r.ppid == parent && r.id.pid == pid
  }

  /** When a pid has several rows the last one wins. */
  function IdentityMap(rows: seq<Row>): map<int, Identity> {
    if rows == [] then map[] else
      var last := rows[|rows| - 1].id;
      IdentityMap(rows[..|rows| - 1])[last.pid := last]
  }

  /** The group of each listed pid; an unlisted root counts as a member of its own group. */
  function GroupMap(rows: seq<Row>, root: Option<int>, pgid: Option<int>): map<int, int> {
    var ids := IdentityMap(rows);
    var listed := map pid | pid in ids :: ids[pid].pgid;
    if root.Some? && pgid.Some? && root.value !in listed then listed[root.value := pgid.value] else listed
  }

  ghost predicate Walk(rows: seq<Row>, path: seq<int>) {
    path != [] && forall i :: 0 <= i < |path| - 1 ==> Child(rows, path[i], path[i + 1])
  }

  /** `pid` is the root or reached from it by parent links. */
  ghost predicate Descends(rows: seq<Row>, root: int, pid: int) {
    exists path :: Walk(rows, path) && path[0] == root && path[|path| - 1] == pid
  }

  ghost predicate Seeded(rows: seq<Row>, root: Option<int>, pgid: Option<int>, pid: int) {
    var groups := GroupMap(rows, root, pgid);
    || (root.Some? && Descends(rows, root.value, pid))
    || (pgid.Some? && pid in groups && groups[pid] == pgid.value)
  }

  ghost predicate ReachedGroup(rows: seq<Row>, root: Option<int>, pgid: Option<int>, g: int) {
    var groups := GroupMap(rows, root, pgid);
    pgid == Some(g) || exists pid :: pid in groups && groups[pid] == g && Seeded(rows, root, pgid, pid)
  }

  ghost predicate InTree(rows: seq<Row>, root: Option<int>, pgid: Option<int>, pid: int) {
    var groups := GroupMap(rows, root, pgid);
    Seeded(rows, root, pgid, pid) || (pid in groups && ReachedGroup(rows, root, pgid, groups[pid]))
  }

  /** `t` is exactly the view of this table. */
  ghost predicate IsTree(rows: seq<Row>, complete: bool, root: Option<int>, pgid: Option<int>, t: TreeScan) {
    var groups := GroupMap(rows, root, pgid);
    var ids := IdentityMap(rows);
    && (forall pid :: pid in t.pids <==> InTree(rows, root, pgid, pid))
    && (forall g :: g in t.pgids <==> ReachedGroup(rows, root, pgid, g))
    && t.coverage == (if complete then CoverageComplete else CoverageUnknown)
    && (forall pid, g :: (pid, g) in t.pidGroups <==> pid in t.pids && pid in groups && groups[pid] == g)
    && (forall id :: id in t.identities <==> id.pid in t.pids && id.pid in ids && ids[id.pid] == id)
    && (forall i, j :: 0 <= i < j < |t.identities| ==> t.identities[i].pid < t.identities[j].pid)
  }

  // ---- the scan ----

  lemma ChildSnoc(rows: seq<Row>, n: nat, a: int, b: int)
    requires n < |rows|
    ensures Child(rows[..n + 1], a, b)
       <==> Child(rows[..n], a, b) || (a == rows[n].ppid && b == rows[n].id.pid)
  {
    assert rows[..n + 1] == rows[..n] + [rows[n]];
    assert rows[n] in rows[..n + 1];
  }

  ghost predicate Indexes(children: map<int, seq<int>>, rows: seq<Row>) {
    forall a, b :: Child(rows, a, b) <==> Listed(children, a, b)
  }

  predicate Listed(children: map<int, seq<int>>, a: int, b: int) { a in children && b in children[a] }

  lemma IndexesSnoc(children: map<int, seq<int>>, rows: seq<Row>, n: nat)
    requires n < |rows| && Indexes(children, rows[..n])
    ensures
      var parent := rows[n].ppid;
      var siblings := if parent in children then children[parent] else [];
      Indexes(children[parent := siblings + [rows[n].id.pid]], rows[..n + 1])
  {
    var parent := rows[n].ppid;
    var siblings := if parent in children then children[parent] else [];
    var grown := children[parent := siblings + [rows[n].id.pid]];
    forall a, b ensures Child(rows[..n + 1], a, b) <==> Listed(grown, a, b) {
      ChildSnoc(rows, n, a, b);
      assert Child(rows[..n], a, b) <==> Listed(children, a, b);
      assert a == parent ==> grown[a] == siblings + [rows[n].id.pid];
    }
  }

  method IndexTable(rows: seq<Row>)
    returns (children: map<int, seq<int>>, ids: map<int, Identity>)
    ensures ids == IdentityMap(rows)
    ensures Indexes(children, rows)
  {
    children, ids := map[], map[];
    for n := 0 to |rows|
      invariant ids == IdentityMap(rows[..n])
      invariant Indexes(children, rows[..n])
    {
      var row := rows[n];
      assert rows[..n + 1][..n] == rows[..n];
      IndexesSnoc(children, rows, n);
      ids := ids[row.id.pid := row.id];
      var siblings := if row.ppid in children then children[row.ppid] else [];
      children := children[row.ppid := siblings + [row.id.pid]];
    }
    assert rows[..|rows|] == rows;
  }

  /** Depth-first search with an explicit stack; it ends on every table, cyclic ones included. */
  method Descendants(rows: seq<Row>, children: map<int, seq<int>>, root: int) returns (pids: set<int>)
    requires Indexes(children, rows)
    ensures forall x :: x in pids <==> Descends(rows, root, x)
  {
    pids := {};
    var stack := [root];
    ghost var universe := {root} + (set r | r in rows :: r.id.pid);
    RootDescends(rows, root);
    while stack != []
      invariant root in pids || root in stack
      invariant forall x :: x in stack || x in pids ==> x in universe && Descends(rows, root, x)
      invariant forall a, b :: a in pids && Child(rows, a, b) ==> b in pids || b in stack
      decreases |universe - pids|, |stack|
    {
      var current := stack[|stack| - 1];
      ghost var before := stack;
      stack := stack[..|stack| - 1];
      assert forall x :: x in before ==> x in stack || x == current;
      if current !in pids {
        ghost var left := universe - pids;
        pids := pids + {current};
        assert universe - pids == left - {current};
        if current in children {
          forall x | x in children[current] ensures x in universe && Descends(rows, root, x) {
            assert Listed(children, current, x) && Child(rows, current, x);
            ChildDescends(rows, root, current, x);
          }
          stack := stack + children[current];
        }
      }
    }
    forall x | Descends(rows, root, x) ensures x in pids {
      var path :| Walk(rows, path) && path[0] == root && path[|path| - 1] == x;
      WalkStaysInside(rows, path, pids);
    }
  }

  lemma RootDescends(rows: seq<Row>, root: int)
    ensures Descends(rows, root, root)
  {
    assert Walk(rows, [root]) && [root][0] == root;
  }

  lemma ChildDescends(rows: seq<Row>, root: int, pid: int, child: int)
    requires Descends(rows, root, pid) && Child(rows, pid, child)
    ensures Descends(rows, root, child)
  {
    var path :| Walk(rows, path) && path[0] == root && path[|path| - 1] == pid;
    var longer := path + [child];
    assert Walk(rows, longer) && longer[0] == root && longer[|longer| - 1] == child;
  }

  lemma {:induction false} WalkStaysInside(rows: seq<Row>, path: seq<int>, closed: set<int>)
    requires Walk(rows, path) && path[0] in closed
    requires forall a, b :: a in closed && Child(rows, a, b) ==> b in closed
    ensures path[|path| - 1] in closed
  {
    if |path| > 1 {
      assert Child(rows, path[0], path[1]);
      WalkStaysInside(rows, path[1..], closed);
    }
  }

  method SeedPids(rows: seq<Row>, root: Option<int>, pgid: Option<int>)
    returns (ids: map<int, Identity>, groups: map<int, int>, pids: set<int>)
    ensures ids == IdentityMap(rows) && groups == GroupMap(rows, root, pgid)
    ensures forall pid :: pid in pids <==> Seeded(rows, root, pgid, pid)
  {
    var children, byPid := IndexTable(rows);
    ids := byPid;
    groups := map pid | pid in ids :: ids[pid].pgid;
    pids := {};
    if root.Some? {
      pids := Descendants(rows, children, root.value);
    }
    if pgid.Some? {
      if root.Some? && root.value !in groups {
        groups := groups[root.value := pgid.value];
      }
      pids := pids + (set pid | pid in groups && groups[pid] == pgid.value);
    }
  }

  method InPidOrder(ids: map<int, Identity>, pids: set<int>) returns (r: seq<Identity>)
    requires forall pid :: pid in ids ==> ids[pid].pid == pid
    ensures forall id :: id in r <==> id.pid in pids && id.pid in ids && ids[id.pid] == id
    ensures forall i, j :: 0 <= i < j < |r| ==> r[i].pid < r[j].pid
  {
    var listed := Sorted(pids * ids.Keys);
    r := [];
    for n := 0 to |listed|
      invariant |r| == n
      invariant forall i :: 0 <= i < n ==> r[i].pid == listed[i] && r[i].pid in ids && r[i] == ids[r[i].pid]
    {
      assert listed[n] in listed && Lists(listed, pids * ids.Keys);
      r := r + [ids[listed[n]]];
    }
    forall id ensures id in r <==> id.pid in pids && id.pid in ids && ids[id.pid] == id {
      if id in r {
        var i :| 0 <= i < |r| && r[i] == id;
        assert listed[i] in listed;
      }
      if id.pid in pids && id.pid in ids && ids[id.pid] == id {
        assert id.pid in pids * ids.Keys;
        var i :| 0 <= i < |listed| && listed[i] == id.pid;
        assert r[i] == id;
      }
    }
  }

  /** The groups of the seeds, then every member of those groups. */
  method CloseOverGroups(rows: seq<Row>, root: Option<int>, pgid: Option<int>, groups: map<int, int>, seeds: set<int>)
    returns (pids: set<int>, pgids: set<int>)
    requires groups == GroupMap(rows, root, pgid)
    requires forall pid :: pid in seeds <==> Seeded(rows, root, pgid, pid)
    ensures forall pid :: pid in pids <==> InTree(rows, root, pgid, pid)
    ensures forall g :: g in pgids <==> ReachedGroup(rows, root, pgid, g)
  {
    pgids := if pgid.Some? then {pgid.value} else {};
    pgids := pgids + (set pid | pid in seeds && pid in groups :: groups[pid]);
    assert forall g :: g in pgids <==> ReachedGroup(rows, root, pgid, g);
    pids := seeds + (set pid | pid in groups && groups[pid] in pgids);
  }

  method Bindings(groups: map<int, int>, pids: set<int>) returns (r: set<(int, int)>)
    ensures forall pid, g :: (pid, g) in r <==> pid in pids && pid in groups && groups[pid] == g
  {
    r := set pid | pid in pids && pid in groups :: (pid, groups[pid]);
  }

  method SnapshotTree(rows: seq<Row>, complete: bool, root: Option<int>, pgid: Option<int>)
    returns (t: TreeScan)
    ensures IsTree(rows, complete, root, pgid, t)
  {
    var ids, groups, seeds := SeedPids(rows, root, pgid);
    var pids, pgids := CloseOverGroups(rows, root, pgid, groups, seeds);
    IdentityMapKeys(rows);
    var identities := InPidOrder(ids, pids);
    var bindings := Bindings(groups, pids);
    t := TreeScan(pids, pgids, if complete then CoverageComplete else CoverageUnknown, bindings, identities);
  }

  lemma {:induction false} IdentityMapKeys(rows: seq<Row>)
    ensures forall pid :: pid in IdentityMap(rows) ==> IdentityMap(rows)[pid].pid == pid
  {
    if rows != [] { IdentityMapKeys(rows[..|rows| - 1]); }
  }

  // ---- what the view guarantees ----

  /** Closure both ways: a listed member's group is reached, and a reached group's members are in;
      every trusted binding and every discovered identity lies inside the view. */
  lemma TreeIsGroupClosed(rows: seq<Row>, complete: bool, root: Option<int>, pgid: Option<int>, t: TreeScan)
    requires IsTree(rows, complete, root, pgid, t)
    ensures var groups := GroupMap(rows, root, pgid);
      && (forall pid :: pid in t.pids && pid in groups ==> groups[pid] in t.pgids)
      && (forall pid :: pid in groups && groups[pid] in t.pgids ==> pid in t.pids)
    ensures forall pid, g :: (pid, g) in t.pidGroups ==> pid in t.pids && g in t.pgids
    ensures forall id :: id in t.identities ==> id.pid in t.pids && id.pgid in t.pgids
    ensures root.Some? ==> root.value in t.pids
    ensures pgid.Some? ==> pgid.value in t.pgids
  {
    var groups := GroupMap(rows, root, pgid);
    IdentityMapKeys(rows);
    forall pid | pid in t.pids && pid in groups ensures groups[pid] in t.pgids {
      assert InTree(rows, root, pgid, pid);
    }
    forall pid | pid in groups && groups[pid] in t.pgids ensures pid in t.pids {
      assert InTree(rows, root, pgid, pid);
    }
    forall id | id in t.identities ensures id.pid in t.pids && id.pgid in t.pgids {
      assert id.pid in groups && groups[id.pid] == id.pgid;
    }
    if root.Some? {
      RootDescends(rows, root.value);
      assert InTree(rows, root, pgid, root.value);
    }
    assert pgid.Some? ==> ReachedGroup(rows, root, pgid, pgid.value);
  }

  /** The view is a function of the table: no second answer fits. */
  lemma TreeIsUnique(rows: seq<Row>, complete: bool, root: Option<int>, pgid: Option<int>, t: TreeScan, u: TreeScan)
    requires IsTree(rows, complete, root, pgid, t) && IsTree(rows, complete, root, pgid, u)
    ensures t == u
  {
    forall pid ensures pid in t.pids <==> pid in u.pids {
      assert pid in t.pids <==> InTree(rows, root, pgid, pid);
    }
    forall g ensures g in t.pgids <==> g in u.pgids {
      assert g in t.pgids <==> ReachedGroup(rows, root, pgid, g);
    }
    assert t.pids == u.pids && t.pgids == u.pgids;
    forall b: (int, int) ensures b in t.pidGroups <==> b in u.pidGroups {
      var (pid, g) := b;
      assert (pid, g) in t.pidGroups <==> (pid, g) in u.pidGroups;
    }
    SameIncreasing(t.identities, u.identities);
  }

  lemma {:induction false} SameIncreasing(a: seq<Identity>, b: seq<Identity>)
    requires forall id :: id in a <==> id in b
    requires forall i, j :: 0 <= i < j < |a| ==> a[i].pid < a[j].pid
    requires forall i, j :: 0 <= i < j < |b| ==> b[i].pid < b[j].pid
    ensures a == b
  {
    assert a != [] ==> a[0] in b;
    assert b != [] ==> b[0] in a;
    if a != [] && b != [] {
      FirstOfBoth(a, b);
      forall id ensures id in a[1..] <==> id in b[1..] {
        assert id in a[1..] <==> id in a && id != a[0];
        assert id in b[1..] <==> id in b && id != b[0];
      }
      SameIncreasing(a[1..], b[1..]);
      assert a == [a[0]] + a[1..] && b == [b[0]] + b[1..];
    }
  }

  lemma FirstOfBoth(a: seq<Identity>, b: seq<Identity>)
    requires a != [] && b != [] && a[0] in b && b[0] in a
    requires forall i, j :: 0 <= i < j < |a| ==> a[i].pid < a[j].pid
    requires forall i, j :: 0 <= i < j < |b| ==> b[i].pid < b[j].pid
    ensures a[0] == b[0]
  {
    var i :| 0 <= i < |b| && b[i] == a[0];
    var j :| 0 <= j < |a| && a[j] == b[0];
  }
}
