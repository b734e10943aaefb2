/**
 The two signalling phases of a cleanup: every captured process is read, each one found running with
 its birth is read again, and the signal follows at once unless that read, or a read of its group
 leader, says otherwise.
 */
module Signalling {
  import opened Base
  import opened Processes
  import opened OperatingSystem
  import opened GroupScans

  predicate InPhase(seg: seq<Event>, sig: Sig) { forall e :: e in seg ==> PhaseOf(e) == Some(sig) }

  /** Reads and signals of the signalling phases, none of which says anything about coverage. */
  predicate OnlySignalReads(seg: seq<Event>) { forall e :: e in seg ==> PhaseOf(e).Some? }

  // ---- what must be signalled ----

  /** A read that shows the captured birth running. */
  predicate ShowsRunning(e: Event, ids: map<int, Identity>) {
    e.Read? && e.pid in ids && RunsAs(e.obs, ids[e.pid])
  }

  predicate SentAt(seg: seq<Event>, i: nat, pid: int, sig: Sig) { i < |seg| && seg[i] == Signalled(pid, sig) }

  /** The last read before a signal decides: the group leader is signalled at once; another process
      once the captured leader was read, and unless that read shows the leader changed. */
  ghost predicate ActedOn(seg: seq<Event>, i: nat, ids: map<int, Identity>)
    requires i < |seg|
  {
    var e := seg[i];
    e.Read? && e.site.SignalTarget? && ShowsRunning(e, ids) ==>
      var id, sig := ids[e.pid], e.site.sig;
      if id.pid == id.pgid then SentAt(seg, i + 1, e.pid, sig)
      else id.pgid in ids ==>
        && i + 1 < |seg| && seg[i + 1].Read? && seg[i + 1].site == SignalLeader(sig) && seg[i + 1].pid == id.pgid
        && (LeaderHolds(seg[i + 1].obs, ids[id.pgid], id.pgid) ==> SentAt(seg, i + 2, e.pid, sig))
  }

  /** A selected process is read again, later in the same phase. */
  ghost predicate Rechecked(seg: seq<Event>, i: nat, ids: map<int, Identity>)
    requires i < |seg|
  {
    var e := seg[i];
    e.Read? && e.site.Selection? && ShowsRunning(e, ids) ==>
      exists j, obs :: i < j < |seg| && seg[j] == Read(SignalTarget(e.site.sig), e.pid, obs)
  }

  ghost predicate AllActedOn(seg: seq<Event>, ids: map<int, Identity>) {
    forall i: nat :: i < |seg| ==> ActedOn(seg, i, ids)
  }

  ghost predicate AllRechecked(seg: seq<Event>, ids: map<int, Identity>) {
    forall i: nat :: i < |seg| ==> Rechecked(seg, i, ids)
  }

  /** No process is sent the same signal twice. */
  ghost predicate SentOnce(seg: seq<Event>) {
    forall i, j :: 0 <= i < j < |seg| && seg[i].Signalled? ==> seg[i] != seg[j]
  }

  /** Both signals were tried on every captured process, as far as its reads allow, between the first
      scan and the rescan. */
  ghost predicate Pursued(seg: seq<Event>, ids: map<int, Identity>) {
    && AllRead(seg, Selection(Term), ids.Keys) && AllRead(seg, Selection(Kill), ids.Keys)
    && AllRechecked(seg, ids) && AllActedOn(seg, ids)
    && SentOnce(seg) && Staged(seg, 0, 5)
  }

  lemma ActedOnConcat(a: seq<Event>, b: seq<Event>, ids: map<int, Identity>)
    requires AllActedOn(a, ids) && AllActedOn(b, ids)
    ensures AllActedOn(a + b, ids)
  {
    forall i: nat | i < |a + b| ensures ActedOn(a + b, i, ids) {
      if i < |a| {
        assert ActedOn(a, i, ids);
      } else {
        assert ActedOn(b, i - |a|, ids);
      }
    }
  }

  lemma RecheckedConcat(a: seq<Event>, b: seq<Event>, ids: map<int, Identity>)
    requires AllRechecked(a, ids) && AllRechecked(b, ids)
    ensures AllRechecked(a + b, ids)
  {
    forall i: nat | i < |a + b| ensures Rechecked(a + b, i, ids) {
      var e := (a + b)[i];
      if e.Read? && e.site.Selection? && ShowsRunning(e, ids) {
        if i < |a| {
          assert Rechecked(a, i, ids);
          var j, obs :| i < j < |a| && a[j] == Read(SignalTarget(e.site.sig), e.pid, obs);
          assert (a + b)[j] == Read(SignalTarget(e.site.sig), e.pid, obs);
        } else {
          assert Rechecked(b, i - |a|, ids);
          var j, obs :| i - |a| < j < |b| && b[j] == Read(SignalTarget(e.site.sig), e.pid, obs);
          assert (a + b)[|a| + j] == Read(SignalTarget(e.site.sig), e.pid, obs);
        }
      }
    }
  }

  lemma SentOnceConcat(a: seq<Event>, b: seq<Event>)
    requires SentOnce(a) && SentOnce(b)
    requires forall e :: e in a && e in b ==> !e.Signalled?
    ensures SentOnce(a + b)
  {
    forall i, j | 0 <= i < j < |a + b| && (a + b)[i].Signalled? ensures (a + b)[i] != (a + b)[j] {
      if j < |a| {
        assert a[i] != a[j];
      } else if i < |a| {
        assert a[i] in a && b[j - |a|] in b;
      } else {
        assert b[i - |a|] != b[j - |a|];
      }
    }
  }

  lemma PassiveIsIdle(seg: seq<Event>, ids: map<int, Identity>)
    requires Passive(seg)
    ensures AllActedOn(seg, ids) && AllRechecked(seg, ids) && SentOnce(seg) && SignalsJustified(seg, ids)
  {
    forall i: nat | i < |seg| ensures ActedOn(seg, i, ids) && Rechecked(seg, i, ids) && !seg[i].Signalled? {
      assert seg[i] in seg;
    }
  }

  lemma PhaseStage(seg: seq<Event>, sig: Sig)
    requires InPhase(seg, sig)
    ensures AtStage(seg, if sig == Term then 1 else 2)
  {}

  lemma TermFirst(first: seq<Event>, term: seq<Event>, kill: seq<Event>, last: seq<Event>)
    requires AtStage(first, 0) && InPhase(term, Term) && InPhase(kill, Kill) && Staged(last, 3, 5)
    ensures Staged(first + (term + kill) + last, 0, 5)
  {
    PhaseStage(term, Term);
    PhaseStage(kill, Kill);
    AtStageIsStaged(first, 0);
    AtStageIsStaged(term, 1);
    AtStageIsStaged(kill, 2);
    StagedConcat(term, kill, 1, 1, 2, 2);
    StagedConcat(first, term + kill, 0, 0, 1, 2);
    StagedConcat(first + (term + kill), last, 0, 2, 3, 5);
  }

  lemma LateIsPassive(seg: seq<Event>)
    requires Staged(seg, 3, 5)
    ensures Passive(seg)
  {}

  lemma AllReadWithin(seg: seq<Event>, all: seq<Event>, site: Site, pids: set<int>)
    requires AllRead(seg, site, pids) && forall e :: e in seg ==> e in all
    ensures AllRead(all, site, pids)
  {
    forall pid | pid in pids ensures WasRead(all, site, pid) {
      assert WasRead(seg, site, pid);
      var obs :| Read(site, pid, obs) in seg;
      assert Read(site, pid, obs) in all;
    }
  }

  // ---- one signal ----

  method SameBirthRunning(os: Os, site: Site, id: Identity) returns (running: bool, ghost seg: seq<Event>)
    modifies os
    ensures os.trace == old(os.trace) + seg
    ensures exists obs :: seg == [Read(site, id.pid, obs)] && running == RunsAs(obs, id)
  {
    var obs := os.ReadProcess(site, id.pid);
    seg := [Read(site, id.pid, obs)];
    running := RunsAs(obs, id);
  }

  /** The three ways of one try: no signal after one or two reads, or a signal after them. */
  ghost predicate Tried(seg: seq<Event>, id: Identity, sig: Sig, sent: bool) {
    && InPhase(seg, sig) && seg != []
    && seg[0].Read? && seg[0].site == SignalTarget(sig) && seg[0].pid == id.pid
    && (forall i :: 0 <= i < |seg| - 1 ==> seg[i].Read?)
    && (forall i :: 1 <= i < |seg| && seg[i].Read? ==> seg[i].site == SignalLeader(sig))
    && (if sent then seg[|seg| - 1] == Signalled(id.pid, sig) else seg[|seg| - 1].Read?)
  }

  /** Rechecks the target, and for a non-leader the captured leader, right before the signal. */
  method SignalSameBirth(os: Os, id: Identity, sig: Sig, leader: Option<Identity>, ghost ids: map<int, Identity>)
    returns (sent: bool, ghost seg: seq<Event>)
    requires id.pid in ids && ids[id.pid] == id
    requires leader == if id.pgid in ids then Some(ids[id.pgid]) else None
    requires leader.Some? ==> leader.value.pid == id.pgid
    modifies os
    ensures os.trace == old(os.trace) + seg
    ensures SignalsJustified(seg, ids) && Tried(seg, id, sig, sent) && ActedOn(seg, 0, ids)
  {
    sent := false;
    var obs := os.ReadProcess(SignalTarget(sig), id.pid);
    seg := [Read(SignalTarget(sig), id.pid, obs)];
    if !RunsAs(obs, id) { return; }
    if id.pid != id.pgid {
      if leader.None? || leader.value.pid != id.pgid { return; }
      var seen := os.ReadProcess(SignalLeader(sig), leader.value.pid);
      seg := seg + [Read(SignalLeader(sig), leader.value.pid, seen)];
      if seen.Some? && !(seen.value.state != Unreadable && seen.value.pgid == id.pgid
                         && seen.value.birth == leader.value.birth) {
        return;
      }
    }
    os.Signal(id.pid, sig);
    ghost var before := seg;
    seg := seg + [Signalled(id.pid, sig)];
    sent := true;
    OnlyLast(before, id.pid, sig, ids);
  }

  /** With reads alone before it, the last signal is the one to justify. */
  lemma OnlyLast(before: seq<Event>, pid: int, sig: Sig, ids: map<int, Identity>)
    requires forall i :: 0 <= i < |before| ==> before[i].Read?
    requires JustifiedAt(before + [Signalled(pid, sig)], |before|, ids)
    ensures SignalsJustified(before + [Signalled(pid, sig)], ids)
  {
    var seg := before + [Signalled(pid, sig)];
    forall i: nat | i < |seg| && seg[i].Signalled? ensures JustifiedAt(seg, i, ids) {
      assert i == |before|;
    }
  }

  lemma TriedFacts(seg: seq<Event>, id: Identity, sig: Sig, sent: bool, ids: map<int, Identity>)
    requires Tried(seg, id, sig, sent)
    ensures SignalledPids(seg) == if sent then {id.pid} else {}
    ensures AllRechecked(seg, ids) && SentOnce(seg) && (ActedOn(seg, 0, ids) ==> AllActedOn(seg, ids))
    ensures forall e :: e in seg && e.Signalled? ==> e.pid == id.pid
  {
    forall i: nat | i < |seg| ensures Rechecked(seg, i, ids) && (seg[i].Signalled? ==> i == |seg| - 1 && sent) {}
    if sent { assert seg[|seg| - 1] in seg; }
  }

  lemma SignalledConcat(a: seq<Event>, b: seq<Event>)
    ensures SignalledPids(a + b) == SignalledPids(a) + SignalledPids(b)
  {}

  lemma NoSignalsNoPids(seg: seq<Event>)
    requires NoSignals(seg)
    ensures SignalledPids(seg) == {}
  {}

  // ---- one phase ----

  /** The processes selected for a signal, in the order of their selection. */
  ghost function SelectedPids(seg: seq<Event>, sig: Sig): seq<int> {
    if seg == [] then []
    else
      var e := seg[|seg| - 1];
      SelectedPids(seg[..|seg| - 1], sig) + (if e.Read? && e.site == Selection(sig) then [e.pid] else [])
  }

  ghost function Backwards(pids: seq<int>): seq<int> { if pids == [] then [] else Backwards(pids[1..]) + [pids[0]] }

  lemma {:induction false} SelectedConcat(a: seq<Event>, b: seq<Event>, sig: Sig)
    ensures SelectedPids(a + b, sig) == SelectedPids(a, sig) + SelectedPids(b, sig)
  {
    if b == [] {
      assert a + b == a;
    } else {
      assert (a + b)[..|a + b| - 1] == a + b[..|b| - 1];
      SelectedConcat(a, b[..|b| - 1], sig);
    }
  }

  lemma {:induction false} NoneSelected(seg: seq<Event>, sig: Sig)
    requires forall e :: e in seg ==> !(e.Read? && e.site == Selection(sig))
    ensures SelectedPids(seg, sig) == []
  {
    if seg != [] {
      assert seg[|seg| - 1] in seg && forall e :: e in seg[..|seg| - 1] ==> e in seg;
      NoneSelected(seg[..|seg| - 1], sig);
    }
  }

  predicate NoRepeats(pids: seq<int>) { forall i, j :: 0 <= i < j < |pids| ==> pids[i] != pids[j] }

  /** The last processes of the order were read, from the end on, and these are the ones found running. */
  ghost predicate Selecting(order: seq<int>, n: nat, ids: map<int, Identity>, sig: Sig, targets: seq<int>,
                            seg: seq<Event>)
    requires n <= |order|
  {
    && |seg| == |order| - n
    && (forall k :: 0 <= k < |seg| ==>
          seg[k].Read? && seg[k].site == Selection(sig) && seg[k].pid == order[|order| - 1 - k])
    && (forall k :: 0 <= k < |seg| && ShowsRunning(seg[k], ids) ==> seg[k].pid in targets)
    && NoRepeats(targets) && (forall pid :: pid in targets ==> pid in order[n..])
    && SelectedPids(seg, sig) == Backwards(order[n..])
  }

  lemma SelectingStep(order: seq<int>, n: nat, ids: map<int, Identity>, sig: Sig, targets: seq<int>, seg: seq<Event>,
                      obs: Option<Observation>)
    requires 0 < n <= |order| && Selecting(order, n, ids, sig, targets, seg)
    requires NoRepeats(order) && order[n - 1] in ids
    ensures var more := if RunsAs(obs, ids[order[n - 1]]) then targets + [order[n - 1]] else targets;
      Selecting(order, n - 1, ids, sig, more, seg + [Read(Selection(sig), order[n - 1], obs)])
  {
    var pid := order[n - 1];
    assert order[n - 1..] == [pid] + order[n..];
    assert pid !in order[n..];
    SelectedConcat(seg, [Read(Selection(sig), pid, obs)], sig);
    assert order[n - 1..][1..] == order[n..];
  }

  method SelectTargets(os: Os, sig: Sig, order: seq<int>, ids: map<int, Identity>)
    returns (targets: seq<int>, ghost seg: seq<Event>)
    requires NoRepeats(order) && forall k :: 0 <= k < |order| ==> order[k] in ids
    requires forall pid :: pid in ids ==> ids[pid].pid == pid
    modifies os
    ensures os.trace == old(os.trace) + seg
    ensures Selecting(order, 0, ids, sig, targets, seg)
  {
    targets, seg := [], [];
    var n := |order|;
    while n > 0
      invariant 0 <= n <= |order|
      invariant os.trace == old(os.trace) + seg
      invariant Selecting(order, n, ids, sig, targets, seg)
    {
      n := n - 1;
      var running, one := SameBirthRunning(os, Selection(sig), ids[order[n]]);
      SelectingStep(order, n + 1, ids, sig, targets, seg, one[0].obs);
      TraceJoin(old(os.trace), seg, one);
      seg := seg + one;
      if running { targets := targets + [order[n]]; }
    }
  }

  /** The first targets have been tried. */
  ghost predicate Signalling(targets: seq<int>, n: nat, ids: map<int, Identity>, sig: Sig, signalled: set<int>,
                             seg: seq<Event>)
    requires n <= |targets|
  {
    && InPhase(seg, sig) && SignalsJustified(seg, ids)
    && AllActedOn(seg, ids) && AllRechecked(seg, ids) && SentOnce(seg)
    && SignalledPids(seg) == signalled
    && (forall e :: e in seg && e.Signalled? ==> e.pid in targets[..n])
    && (forall pid :: pid in targets[..n] ==> WasRead(seg, SignalTarget(sig), pid))
    && (forall e :: e in seg && e.Read? ==> !e.site.Selection?)
  }

  lemma SignallingStep(targets: seq<int>, n: nat, ids: map<int, Identity>, sig: Sig, signalled: set<int>,
                       seg: seq<Event>, one: seq<Event>, id: Identity, sent: bool)
    requires n < |targets| && NoRepeats(targets) && Signalling(targets, n, ids, sig, signalled, seg)
    requires id.pid == targets[n] && Tried(one, id, sig, sent)
    requires SignalsJustified(one, ids) && ActedOn(one, 0, ids)
    ensures Signalling(targets, n + 1, ids, sig, if sent then signalled + {id.pid} else signalled, seg + one)
  {
    TriedFacts(one, id, sig, sent, ids);
    JustifiedConcat(seg, one, ids);
    ActedOnConcat(seg, one, ids);
    RecheckedConcat(seg, one, ids);
    SignalledConcat(seg, one);
    assert targets[..n + 1] == targets[..n] + [targets[n]];
    assert targets[n] !in targets[..n];
    SentOnceConcat(seg, one);
    forall pid | pid in targets[..n + 1] ensures WasRead(seg + one, SignalTarget(sig), pid) {
      if pid in targets[..n] {
        assert WasRead(seg, SignalTarget(sig), pid);
        var obs :| Read(SignalTarget(sig), pid, obs) in seg;
        assert Read(SignalTarget(sig), pid, obs) in seg + one;
      } else {
        assert one[0] in seg + one && one[0] == Read(SignalTarget(sig), pid, one[0].obs);
      }
    }
  }

  method SignalEach(os: Os, sig: Sig, targets: seq<int>, ids: map<int, Identity>)
    returns (signalled: set<int>, ghost seg: seq<Event>)
    requires NoRepeats(targets) && forall k :: 0 <= k < |targets| ==> targets[k] in ids
    requires forall pid :: pid in ids ==> ids[pid].pid == pid
    modifies os
    ensures os.trace == old(os.trace) + seg
    ensures Signalling(targets, |targets|, ids, sig, signalled, seg)
  {
    seg, signalled := [], {};
    for n := 0 to |targets|
      invariant os.trace == old(os.trace) + seg
      invariant Signalling(targets, n, ids, sig, signalled, seg)
    {
      var id := ids[targets[n]];
      assert id.pid == targets[n];
      var leader := if id.pgid in ids then Some(ids[id.pgid]) else None;
      var sent, one := SignalSameBirth(os, id, sig, leader, ids);
      SignallingStep(targets, n, ids, sig, signalled, seg, one, id, sent);
      TraceJoin(old(os.trace), seg, one);
      seg := seg + one;
      if sent { signalled := signalled + {id.pid}; }
    }
  }

  /** Every captured process was read once in this phase, and what these reads ask for was done. */
  ghost predicate PhaseDone(seg: seq<Event>, sig: Sig, ids: map<int, Identity>, order: seq<int>) {
    && SelectedPids(seg, sig) == Backwards(order)
    && InPhase(seg, sig) && SignalsJustified(seg, ids)
    && AllRead(seg, Selection(sig), ids.Keys) && AllRechecked(seg, ids) && AllActedOn(seg, ids) && SentOnce(seg)
  }

  /** One signalling phase: select every still-running captured birth, then signal each in turn. */
  method SignalPhase(os: Os, sig: Sig, order: seq<int>, ids: map<int, Identity>)
    returns (signalled: set<int>, ghost seg: seq<Event>)
    requires NoRepeats(order) && forall pid :: pid in order <==> pid in ids
    requires forall pid :: pid in ids ==> ids[pid].pid == pid
    modifies os
    ensures os.trace == old(os.trace) + seg
    ensures PhaseDone(seg, sig, ids, order) && SignalledPids(seg) == signalled
  {
    assert forall k :: 0 <= k < |order| ==> order[k] in order;
    var targets, selection := SelectTargets(os, sig, order, ids);
    TargetsAreCaptured(order, targets, ids, sig, selection);
    ghost var acts;
    signalled, acts := SignalEach(os, sig, targets, ids);
    seg := selection + acts;
    PhaseJoined(order, targets, ids, sig, signalled, selection, acts);
  }

  lemma TargetsAreCaptured(order: seq<int>, targets: seq<int>, ids: map<int, Identity>, sig: Sig, selection: seq<Event>)
    requires Selecting(order, 0, ids, sig, targets, selection) && forall pid :: pid in order ==> pid in ids
    ensures NoRepeats(targets) && forall k :: 0 <= k < |targets| ==> targets[k] in ids
  {
    assert order[0..] == order;
    forall k | 0 <= k < |targets| ensures targets[k] in ids {
      var pid := targets[k];
      assert pid in targets;
      assert pid in order[0..];
      assert pid in order;
    }
  }

  lemma SelectionFacts(order: seq<int>, targets: seq<int>, ids: map<int, Identity>, sig: Sig, selection: seq<Event>)
    requires Selecting(order, 0, ids, sig, targets, selection) && forall pid :: pid in order <==> pid in ids
    ensures InPhase(selection, sig) && NoSignals(selection) && SignalsJustified(selection, ids)
    ensures AllRead(selection, Selection(sig), ids.Keys) && AllActedOn(selection, ids) && SentOnce(selection)
  {
    forall pid | pid in ids.Keys ensures WasRead(selection, Selection(sig), pid) {
      var i :| 0 <= i < |order| && order[i] == pid;
      var e := selection[|order| - 1 - i];
      assert e == Read(Selection(sig), pid, e.obs) && e in selection;
    }
  }

  lemma PhaseJoined(order: seq<int>, targets: seq<int>, ids: map<int, Identity>, sig: Sig, signalled: set<int>,
                    selection: seq<Event>, acts: seq<Event>)
    requires Selecting(order, 0, ids, sig, targets, selection) && forall pid :: pid in order <==> pid in ids
    requires Signalling(targets, |targets|, ids, sig, signalled, acts)
    ensures PhaseDone(selection + acts, sig, ids, order) && SignalledPids(selection + acts) == signalled
  {
    SelectionFacts(order, targets, ids, sig, selection);
    JustifiedConcat(selection, acts, ids);
    ActedOnConcat(selection, acts, ids);
    SentOnceConcat(selection, acts);
    SignalledConcat(selection, acts);
    NoSignalsNoPids(selection);
    AllReadWithin(selection, selection + acts, Selection(sig), ids.Keys);
    SelectedAreRechecked(targets, ids, sig, selection, acts);
    NoneSelected(acts, sig);
    SelectedConcat(selection, acts, sig);
    assert order[0..] == order;
  }

  lemma SelectedAreRechecked(targets: seq<int>, ids: map<int, Identity>, sig: Sig, selection: seq<Event>,
                             acts: seq<Event>)
    requires forall e :: e in selection ==> e.Read? && e.site == Selection(sig)
    requires forall k :: 0 <= k < |selection| && ShowsRunning(selection[k], ids) ==> selection[k].pid in targets
    requires AllRechecked(acts, ids) && forall pid :: pid in targets ==> WasRead(acts, SignalTarget(sig), pid)
    ensures AllRechecked(selection + acts, ids)
  {
    var seg := selection + acts;
    forall i: nat | i < |seg| ensures Rechecked(seg, i, ids) {
      if i < |selection| {
        assert selection[i] in selection;
        if ShowsRunning(seg[i], ids) {
          assert WasRead(acts, SignalTarget(sig), seg[i].pid);
          var obs :| Read(SignalTarget(sig), seg[i].pid, obs) in acts;
          var j :| 0 <= j < |acts| && acts[j] == Read(SignalTarget(sig), seg[i].pid, obs);
          assert seg[|selection| + j] == Read(SignalTarget(sig), seg[i].pid, obs);
        }
      } else {
        assert Rechecked(acts, i - |selection|, ids);
        if seg[i].Read? && seg[i].site.Selection? && ShowsRunning(seg[i], ids) {
          var j, obs :| i - |selection| < j < |acts| && acts[j] == Read(SignalTarget(seg[i].site.sig), seg[i].pid, obs);
          assert seg[|selection| + j] == acts[j];
        }
      }
    }
  }

  method SignalTwice(os: Os, order: seq<int>, ids: map<int, Identity>)
    returns (signalled: set<int>, ghost term: seq<Event>, ghost kill: seq<Event>)
    requires NoRepeats(order) && forall pid :: pid in order <==> pid in ids
    requires forall pid :: pid in ids ==> ids[pid].pid == pid
    modifies os
    ensures os.trace == old(os.trace) + (term + kill)
    ensures PhaseDone(term, Term, ids, order) && PhaseDone(kill, Kill, ids, order)
      && SignalledPids(term + kill) == signalled
  {
    var terminated, killed;
    terminated, term := SignalPhase(os, Term, order, ids);
    killed, kill := SignalPhase(os, Kill, order, ids);
    SignalledConcat(term, kill);
    TraceJoin(old(os.trace), term, kill);
    signalled := terminated + killed;
  }

  /** Both phases, with nothing of the kind before or after them. */
  lemma PhasesPursue(first: seq<Event>, term: seq<Event>, kill: seq<Event>, last: seq<Event>, ids: map<int, Identity>,
                     order: seq<int>)
    requires AtStage(first, 0) && PhaseDone(term, Term, ids, order) && PhaseDone(kill, Kill, ids, order)
      && Staged(last, 3, 5)
    ensures Pursued(first + (term + kill) + last, ids) && InTurn(first + (term + kill) + last, order)
    ensures OnlySignalReads(term + kill) && SignalsJustified(first + (term + kill) + last, ids)
  {
    var acts := term + kill;
    AtStageIsStaged(first, 0);
    LateIsPassive(last);
    BothPhases(term, kill, ids, order);
    AddAround(first, acts, last, ids);
    TermFirst(first, term, kill, last);
    AllReadWithin(term, first + acts + last, Selection(Term), ids.Keys);
    AllReadWithin(kill, first + acts + last, Selection(Kill), ids.Keys);
    TurnsAround(first, term, kill, last, order);
  }

  /** For either signal the processes are selected once each, the last captured first. */
  ghost predicate InTurn(seg: seq<Event>, order: seq<int>) {
    SelectedPids(seg, Term) == SelectedPids(seg, Kill) == Backwards(order)
  }

  lemma TurnsAround(first: seq<Event>, term: seq<Event>, kill: seq<Event>, last: seq<Event>, order: seq<int>)
    requires Passive(first) && Passive(last) && InPhase(term, Term) && InPhase(kill, Kill)
    requires SelectedPids(term, Term) == SelectedPids(kill, Kill) == Backwards(order)
    ensures InTurn(first + (term + kill) + last, order)
  {
    NoneSelected(kill, Term);
    NoneSelected(term, Kill);
    SelectedConcat(term, kill, Term);
    SelectedConcat(term, kill, Kill);
    TurnAround(first, term + kill, last, Term);
    TurnAround(first, term + kill, last, Kill);
  }

  lemma TurnAround(first: seq<Event>, acts: seq<Event>, last: seq<Event>, sig: Sig)
    requires Passive(first) && Passive(last)
    ensures SelectedPids(first + acts + last, sig) == SelectedPids(acts, sig)
  {
    NoneSelected(first, sig);
    NoneSelected(last, sig);
    SelectedConcat(first, acts, sig);
    SelectedConcat(first + acts, last, sig);
  }

  lemma BothPhases(term: seq<Event>, kill: seq<Event>, ids: map<int, Identity>, order: seq<int>)
    requires PhaseDone(term, Term, ids, order) && PhaseDone(kill, Kill, ids, order)
    ensures AllRechecked(term + kill, ids) && AllActedOn(term + kill, ids) && SentOnce(term + kill)
    ensures OnlySignalReads(term + kill) && SignalsJustified(term + kill, ids)
  {
    ActedOnConcat(term, kill, ids);
    RecheckedConcat(term, kill, ids);
    SentOnceConcat(term, kill);
    JustifiedConcat(term, kill, ids);
  }

  lemma AddAround(first: seq<Event>, acts: seq<Event>, last: seq<Event>, ids: map<int, Identity>)
    requires Passive(first) && Passive(last)
    requires AllRechecked(acts, ids) && AllActedOn(acts, ids) && SentOnce(acts) && SignalsJustified(acts, ids)
    ensures var seg := first + acts + last;
      AllRechecked(seg, ids) && AllActedOn(seg, ids) && SentOnce(seg) && SignalsJustified(seg, ids)
  {
    PassiveIsIdle(first, ids);
    PassiveIsIdle(last, ids);
    ActedOnConcat(first, acts, ids);
    ActedOnConcat(first + acts, last, ids);
    RecheckedConcat(first, acts, ids);
    RecheckedConcat(first + acts, last, ids);
    SentOnceConcat(first, acts);
    SentOnceConcat(first + acts, last);
    JustifiedConcat(first, acts, ids);
    JustifiedConcat(first + acts, last, ids);
  }
}
