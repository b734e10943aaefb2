/**
 The publication protocol of one watched command: capture passes on the main thread and on watcher
 threads publish under one lock; the state goes open, draining, frozen; the copy made at the freeze
 is the only thing cleanup ever sees.
 */
module Publication {
  import opened Base
  import opened Processes
  import opened Merging
  import opened Cleanup
  import opened CapturePasses

  datatype PubPhase = Open | Draining | Frozen

  /** The shared discovery state that the lock protects. */
  datatype Tracked = Tracked(
    pids: set<int>, pgids: set<int>, pidGroups: set<(int, int)>,
    identities: map<int, Identity>, observed: map<ObservedKey, Identity>,
    coverage: Coverage, why: Option<Diagnostic>, offences: seq<Offence>)

  const NOTHING_TRACKED := Tracked({}, {}, {}, map[], map[], CoverageComplete, None, [])

  /** What the freeze copies. */
  datatype Copy = Copy(
    identities: seq<Identity>, observed: map<ObservedKey, Identity>, pids: set<int>, pgids: set<int>,
    pidGroups: set<(int, int)>, coverage: Coverage, why: Option<Diagnostic>, offences: seq<Offence>, drain: Drain)

  datatype Pass = MainPass(n: nat) | WatcherPass(n: nat)

  /** Where each pass that was started is now: history, next to the counters of the program. */
  datatype Passes = Passes(started: set<Pass>, running: set<Pass>, published: set<Pass>, late: set<Pass>,
                           broken: set<Pass>)

  datatype Pub = Pub(
    phase: PubPhase, inflight: int, failed: bool, discarded: bool,
    tracked: Tracked, mainPids: set<int>, mainPgids: set<int>, copy: Option<Copy>,
    watching: bool, aborted: bool, passes: Passes)

  const START := Pub(Open, 0, false, false, NOTHING_TRACKED, {}, {}, None, false, false, Passes({}, {}, {}, {}, {}))

  // ---- one atomic step per lock section ----

  datatype Step =
    | Begin(pass: Pass)
    | Deliver(pass: Pass, scope: Scope)
    | Break(pass: Pass)
    | Watch
    | Abort
    | CopyNumbers
    | PostExit(pids: set<int>, pgids: set<int>, unknown: bool)
    | StartDraining
    | Freeze(joined: Drain)

  function Started(p: Passes, pass: Pass): Passes { p.(started := p.started + {pass}, running := p.running + {pass}) }

  function Ended(p: Passes, pass: Pass): Passes { p.(running := p.running - {pass}) }

  predicate MainIdle(s: Pub) { forall p :: p in s.passes.running ==> p.WatcherPass? }

  /** The main thread runs passes one at a time and acts only between them; watchers run freely. */
  predicate MainActs(s: Pub) { s.phase == Open && !s.aborted && MainIdle(s) }

  ghost predicate Enabled(s: Pub, step: Step) {
    match step
    case Begin(pass) => pass !in s.passes.started && (if pass.MainPass? then MainActs(s) else s.watching)
    case Deliver(pass, scope) => pass in s.passes.running && SoundScope(scope)
    case Break(pass) => pass in s.passes.running
    case Watch | Abort | CopyNumbers | PostExit(_, _, _) => MainActs(s)
    case StartDraining => s.phase == Open && MainIdle(s)
    case Freeze(joined) =>
      s.phase == Draining
      && (if s.watching then joined in {Drained, StillRunningWatcher, DrainUnknown} else joined == NotApplicable)
  }

  function Learn(t: Tracked, why: Option<Diagnostic>): Tracked {
    if why.Some? then t.(coverage := CoverageUnknown, why := Or(t.why, why)) else t
  }

  /** A pid's birth is recorded once; only its group may move with the same birth. */
  function Adopt(known: map<int, Identity>, candidate: Identity): map<int, Identity> {
    if candidate.pid !in known then known[candidate.pid := candidate]
    else
      var id := known[candidate.pid];
      if id.birth == candidate.birth && id.pgid != candidate.pgid
      then known[candidate.pid := Identity(id.pid, candidate.pgid, id.birth, id.initial)]
      else known
  }

  function AdoptAll(known: map<int, Identity>, candidates: seq<Identity>): map<int, Identity> {
    if candidates == [] then known
    else Adopt(AdoptAll(known, candidates[..|candidates| - 1]), candidates[|candidates| - 1])
  }

  function Recall(observed: map<ObservedKey, Identity>, ids: seq<Identity>): map<ObservedKey, Identity> {
    if ids == [] then observed
    else Recall(observed, ids[..|ids| - 1])[KeyOf(ids[|ids| - 1]) := ids[|ids| - 1]]
  }

  function Publish(t: Tracked, scope: Scope): Tracked {
    Tracked(t.pids + scope.trackedPids, t.pgids + scope.trackedPgids, t.pidGroups + scope.pidGroups,
            AdoptAll(t.identities, scope.identities), Recall(t.observed, scope.observed),
            t.coverage, t.why, t.offences + scope.offences)
  }

  /** The drain status recorded at the freeze. */
  function DrainAtFreeze(s: Pub, joined: Drain): Drain {
    if (s.failed || s.inflight != 0) && joined == Drained then DrainUnknown
    else if s.discarded && joined == Drained then Discarded
    else joined
  }

  function IdentitiesByPid(m: map<int, Identity>): seq<Identity> {
    var order := Sorted(m.Keys);
    seq(|order|, i requires 0 <= i < |order| => (assert order[i] in order; m[order[i]]))
  }

  function TakeCopy(s: Pub, joined: Drain): Copy {
    var t := s.tracked;
    Copy(IdentitiesByPid(t.identities), t.observed, s.mainPids + t.pids, s.mainPgids + t.pgids,
         t.pidGroups, t.coverage, t.why, Merge(t.offences), DrainAtFreeze(s, joined))
  }

  const CAPTURE_FAILURE := Diagnostic(WatcherCapture, CaptureFailure)

  function Apply(s: Pub, step: Step): Pub {
    var p := s.passes;
    match step
    case Begin(pass) =>
      if s.phase != Open then s
      else s.(inflight := s.inflight + 1, passes := Started(p, pass))
    case Deliver(pass, scope) =>
      var t := Learn(s.tracked, scope.diagnostic);
      if s.phase == Frozen then
        s.(inflight := s.inflight - 1, tracked := t, discarded := true,
           passes := Ended(p, pass).(late := p.late + {pass}))
      else
        s.(inflight := s.inflight - 1, tracked := Publish(t, scope),
           passes := Ended(p, pass).(published := p.published + {pass}))
    case Break(pass) =>
      s.(inflight := s.inflight - 1, failed := true, tracked := Learn(s.tracked, Some(CAPTURE_FAILURE)),
         aborted := s.aborted || pass.MainPass?, passes := Ended(p, pass).(broken := p.broken + {pass}))
    case Watch => s.(watching := true)
    case Abort => s.(aborted := true)
    case CopyNumbers => s.(mainPids := s.tracked.pids, mainPgids := s.tracked.pgids)
    case PostExit(pids, pgids, unknown) =>
      s.(mainPids := s.mainPids + pids, mainPgids := s.mainPgids + pgids,
         tracked := if unknown then Learn(s.tracked, Some(Diagnostic(PostExitSnapshot, SnapshotFailure)))
           else s.tracked)
    case StartDraining => s.(phase := Draining)
    case Freeze(joined) => s.(phase := Frozen, copy := Some(TakeCopy(s, joined)))
  }

  // ---- runs ----

  function Front(steps: seq<Step>): seq<Step>
    requires steps != []
  {
    steps[..|steps| - 1]
  }

  function Last(steps: seq<Step>): Step
    requires steps != []
  {
    steps[|steps| - 1]
  }

  ghost predicate OneStep(s: Pub, step: Step, next: Pub) { Enabled(s, step) && next == Apply(s, step) }

  /** These steps lead from `s` to `later`, in any interleaving of the passes. */
  ghost predicate Continues(s: Pub, steps: seq<Step>, later: Pub) {
    if steps == [] then later == s
    else exists m :: Continues(s, Front(steps), m) && OneStep(m, Last(steps), later)
  }

  ghost predicate Reachable(s: Pub) { exists steps :: Continues(START, steps, s) }

  // ---- invariant ----

  /** Every pass that was started is in exactly one of the four places. */
  predicate Accounted(p: Passes) {
    && p.started == p.running + p.published + p.late + p.broken
    && (forall q :: q in p.running ==> q !in p.published && q !in p.late && q !in p.broken)
    && (forall q :: q in p.published ==> q !in p.late && q !in p.broken)
    && (forall q :: q in p.late ==> q !in p.broken)
  }

  function Unfinished(p: Passes): set<Pass> { p.started - p.published - p.late - p.broken }

  ghost predicate PassesFit(s: Pub) {
    && Accounted(s.passes)
    && s.inflight == |s.passes.running|
    && (s.failed <==> s.passes.broken != {})
    && (s.discarded <==> s.passes.late != {})
    && (s.phase != Open ==> MainIdle(s))
    && (s.phase != Frozen ==> s.passes.late == {})
    && OwnersFit(s)
  }

  /** Watcher passes need a watcher; a failed main-thread pass fails the command. */
  predicate OwnersFit(s: Pub) {
    && (forall q :: q in s.passes.started && q.WatcherPass? ==> s.watching)
    && (forall q :: q in s.passes.broken && q.MainPass? ==> s.aborted)
  }

  predicate Keyed(m: map<int, Identity>) { forall pid :: pid in m ==> m[pid].pid == pid }

  ghost predicate TrackedFits(t: Tracked) {
    && DiagnosticFits(t.coverage, t.why)
    && (t.offences != [] ==> t.coverage == CoverageUnknown)
    && AllValid(t.offences)
    && Keyed(t.identities)
  }

  /** What cleanup may rely on about the frozen copy. */
  ghost predicate SoundCopy(c: Copy) {
    && DiagnosticFits(c.coverage, c.why)
    && (c.offences != [] ==> c.coverage == CoverageUnknown)
    && Witnessed(c.why, c.offences) && AllValid(c.offences)
    && DistinctPids(c.identities)
    && c.drain != Discarded
  }

  /** Every started pass was published before the freeze and none failed. */
  predicate AllPublished(p: Passes) { p.running == {} && p.broken == {} && p.late == {} && p.started == p.published }

  ghost predicate Inv(s: Pub) {
    && PassesFit(s)
    && TrackedFits(s.tracked)
    && (s.failed ==> s.tracked.coverage == CoverageUnknown)
    && (s.phase != Frozen ==> s.copy.None? && Witnessed(s.tracked.why, s.tracked.offences))
    && (s.phase == Frozen ==>
          && s.copy.Some? && SoundCopy(s.copy.value)
          && (s.copy.value.drain == NotApplicable <==> !s.watching)
          && (s.copy.value.drain == Drained ==> AllPublished(s.passes))
          && (s.copy.value.drain == NotApplicable && !s.aborted ==> AllPublished(s.passes)))
  }

  lemma {:induction false} AdoptAllFacts(known: map<int, Identity>, candidates: seq<Identity>)
    requires Keyed(known)
    ensures Keyed(AdoptAll(known, candidates))
    ensures forall pid :: pid in known ==>
      pid in AdoptAll(known, candidates) && AdoptAll(known, candidates)[pid].birth == known[pid].birth
  {
    if candidates != [] { AdoptAllFacts(known, candidates[..|candidates| - 1]); }
  }

  lemma PublishFits(t: Tracked, scope: Scope)
    requires TrackedFits(t) && Witnessed(t.why, t.offences) && SoundScope(scope)
    ensures var u := Publish(Learn(t, scope.diagnostic), scope); TrackedFits(u) && Witnessed(u.why, u.offences)
  {
    AdoptAllFacts(t.identities, scope.identities);
    var all := t.offences + scope.offences;
    assert forall o :: o in t.offences || o in scope.offences ==> o in all;
  }

  lemma IdentitiesDistinct(m: map<int, Identity>)
    requires Keyed(m)
    ensures DistinctPids(IdentitiesByPid(m))
  {
    var order := Sorted(m.Keys);
    forall i | 0 <= i < |order| ensures IdentitiesByPid(m)[i].pid == order[i] { assert order[i] in order; }
  }

  lemma CopyIsSound(s: Pub, joined: Drain)
    requires Inv(s) && Enabled(s, Freeze(joined))
    ensures SoundCopy(TakeCopy(s, joined))
  {
    IdentitiesDistinct(s.tracked.identities);
    MergeKeepsWitness(s.tracked.why, s.tracked.offences);
    MergeKeepsValidity(s.tracked.offences);
  }

  lemma StartAccounted(p: Passes, pass: Pass)
    requires Accounted(p) && pass !in p.started
    ensures Accounted(Started(p, pass)) && |Started(p, pass).running| == |p.running| + 1
  {}

  /** The pass leaves the running ones for exactly one of the other places. */
  predicate EndsIn(p: Passes, pass: Pass, q: Passes) {
    var e := Ended(p, pass);
    || q == e.(published := p.published + {pass})
    || q == e.(late := p.late + {pass})
    || q == e.(broken := p.broken + {pass})
  }

  lemma EndAccounted(p: Passes, pass: Pass, q: Passes)
    requires Accounted(p) && pass in p.running && EndsIn(p, pass, q)
    ensures Accounted(q)
  {}

  lemma EndCounted(p: Passes, pass: Pass, q: Passes)
    requires pass in p.running && q.running == p.running - {pass}
    ensures |q.running| == |p.running| - 1
  {
    assert q.running + {pass} == p.running;
  }

  /** With every pass settled and none failed, everything started was published. */
  lemma NothingInFlight(s: Pub)
    requires PassesFit(s) && s.inflight == 0 && !s.failed && s.phase != Frozen
    ensures AllPublished(s.passes)
  {
    assert |s.passes.running| == 0;
    assert s.passes.running == {};
    assert s.passes.started == s.passes.published;
  }

  lemma NoWatcherNoneRunning(s: Pub)
    requires PassesFit(s) && s.phase != Open && !s.watching
    ensures s.passes.running == {} && s.inflight == 0
  {
    assert (forall p :: p !in s.passes.running) ==> s.passes.running == {};
  }

  lemma FreezeKeepsInv(s: Pub, joined: Drain)
    requires Inv(s) && Enabled(s, Freeze(joined))
    ensures Inv(Apply(s, Freeze(joined)))
  {
    CopyIsSound(s, joined);
    if s.inflight == 0 && !s.failed { NothingInFlight(s); }
    if !s.watching { NoWatcherNoneRunning(s); }
  }

  lemma DeliverKeepsInv(s: Pub, pass: Pass, scope: Scope)
    requires Inv(s) && Enabled(s, Deliver(pass, scope))
    ensures Inv(Apply(s, Deliver(pass, scope)))
  {
    EndAccounted(s.passes, pass, Apply(s, Deliver(pass, scope)).passes);
    EndCounted(s.passes, pass, Apply(s, Deliver(pass, scope)).passes);
    if s.phase != Frozen { PublishFits(s.tracked, scope); }
  }

  lemma BeginKeepsInv(s: Pub, pass: Pass)
    requires Inv(s) && Enabled(s, Begin(pass))
    ensures Inv(Apply(s, Begin(pass)))
  {
    StartAccounted(s.passes, pass);
  }

  lemma BreakOwnersFit(s: Pub, pass: Pass)
    requires OwnersFit(s)
    ensures OwnersFit(Apply(s, Break(pass)))
  {}

  lemma BreakPassesFit(s: Pub, pass: Pass)
    requires PassesFit(s) && pass in s.passes.running
    ensures PassesFit(Apply(s, Break(pass)))
  {
    BreakOwnersFit(s, pass);
    EndAccounted(s.passes, pass, Apply(s, Break(pass)).passes);
    EndCounted(s.passes, pass, Apply(s, Break(pass)).passes);
    assert pass in Apply(s, Break(pass)).passes.broken;
  }

  lemma LearnFits(t: Tracked, why: Option<Diagnostic>)
    requires TrackedFits(t) && why.Some? && AllowedPair(why.value) && why.value.stage != GroupMember
    ensures TrackedFits(Learn(t, why)) && (Witnessed(t.why, t.offences) ==> Witnessed(Learn(t, why).why, t.offences))
  {}

  lemma BreakKeepsInv(s: Pub, pass: Pass)
    requires Inv(s) && Enabled(s, Break(pass))
    ensures Inv(Apply(s, Break(pass)))
  {
    BreakPassesFit(s, pass);
    LearnFits(s.tracked, Some(CAPTURE_FAILURE));
  }

  lemma WatchKeepsInv(s: Pub, step: Step)
    requires Inv(s) && Enabled(s, step) && step.Watch?
    ensures Inv(Apply(s, step))
  {}

  lemma CopyKeepsInv(s: Pub, step: Step)
    requires Inv(s) && Enabled(s, step) && step.CopyNumbers?
    ensures Inv(Apply(s, step))
  {}

  lemma PostExitKeepsInv(s: Pub, step: Step)
    requires Inv(s) && Enabled(s, step) && step.PostExit?
    ensures Inv(Apply(s, step))
  {}

  lemma CloseKeepsInv(s: Pub, step: Step)
    requires Inv(s) && Enabled(s, step) && (step.Abort? || step.StartDraining?)
    ensures Inv(Apply(s, step))
  {}

  lemma StepKeepsInv(s: Pub, step: Step)
    requires Inv(s) && Enabled(s, step)
    ensures Inv(Apply(s, step))
  {
    match step
    case Begin(pass) => BeginKeepsInv(s, pass);
    case Deliver(pass, scope) => DeliverKeepsInv(s, pass, scope);
    case Break(pass) => BreakKeepsInv(s, pass);
    case Freeze(joined) => FreezeKeepsInv(s, joined);
    case Watch => WatchKeepsInv(s, step);
    case CopyNumbers => CopyKeepsInv(s, step);
    case PostExit(_, _, _) => PostExitKeepsInv(s, step);
    case _ => CloseKeepsInv(s, step);
  }

  // ---- what any continuation keeps ----

  function Rank(p: PubPhase): nat { match p case Open => 0 case Draining => 1 case Frozen => 2 }

  /** Nothing that was tracked is forgotten, recorded births never change, the first diagnostic stays. */
  ghost predicate Grows(t: Tracked, u: Tracked) {
    && t.pids <= u.pids && t.pgids <= u.pgids && t.pidGroups <= u.pidGroups
    && t.observed.Keys <= u.observed.Keys
    && (forall pid :: pid in t.identities ==> pid in u.identities && u.identities[pid].birth == t.identities[pid].birth)
    && t.offences <= u.offences
    && (t.coverage == CoverageUnknown ==> u.coverage == CoverageUnknown) && (t.why.Some? ==> u.why == t.why)
  }

  predicate HoldsBirth(ids: seq<Identity>, pid: int, birth: string) {
    exists id :: id in ids && id.pid == pid && id.birth == birth
  }

  /** All that was tracked is in the copy. */
  ghost predicate Covers(c: Copy, t: Tracked) {
    && t.pids <= c.pids && t.pgids <= c.pgids && t.pidGroups <= c.pidGroups
    && t.observed.Keys <= c.observed.Keys
    && (forall pid :: pid in t.identities ==> HoldsBirth(c.identities, pid, t.identities[pid].birth))
    && (exists more :: c.offences == Merge(t.offences + more))
    && (t.coverage == CoverageUnknown ==> c.coverage == CoverageUnknown) && (t.why.Some? ==> c.why == t.why)
  }

  /** The state only goes open, draining, frozen; no pass starts after open; tracking only grows; the
      copy covers all that was tracked before it was made, and never changes once it is made. */
  ghost predicate Evolves(s: Pub, later: Pub) {
    && Rank(s.phase) <= Rank(later.phase)
    && s.passes.started <= later.passes.started
    && (s.phase != Open ==> later.passes.started == s.passes.started)
    && Grows(s.tracked, later.tracked)
    && (s.phase != Frozen && later.phase == Frozen ==> later.copy.Some? && Covers(later.copy.value, s.tracked))
    && (s.phase == Frozen ==> later.copy == s.copy && later.watching == s.watching && (s.aborted ==> later.aborted))
  }

  lemma {:induction false} RecallKeys(observed: map<ObservedKey, Identity>, ids: seq<Identity>)
    ensures observed.Keys <= Recall(observed, ids).Keys
    ensures forall id :: id in ids ==> KeyOf(id) in Recall(observed, ids)
  {
    if ids != [] {
      RecallKeys(observed, ids[..|ids| - 1]);
      assert ids == ids[..|ids| - 1] + [ids[|ids| - 1]];
    }
  }

  lemma PublishGrows(t: Tracked, scope: Scope)
    requires Keyed(t.identities)
    ensures Grows(t, Publish(Learn(t, scope.diagnostic), scope)) && Grows(t, Learn(t, scope.diagnostic))
  {
    AdoptAllFacts(t.identities, scope.identities);
    RecallKeys(t.observed, scope.observed);
  }

  lemma FreezeCovers(s: Pub, joined: Drain)
    requires Keyed(s.tracked.identities)
    ensures Covers(TakeCopy(s, joined), s.tracked)
  {
    var t, c := s.tracked, TakeCopy(s, joined);
    forall pid | pid in t.identities ensures HoldsBirth(c.identities, pid, t.identities[pid].birth) {
      var order := Sorted(t.identities.Keys);
      assert pid in order;
      var i :| 0 <= i < |order| && order[i] == pid;
      assert c.identities[i] == t.identities[pid];
    }
    assert t.offences + [] == t.offences;
  }

  lemma StepEvolves(s: Pub, step: Step)
    requires Inv(s) && Enabled(s, step)
    ensures Evolves(s, Apply(s, step))
  {
    if step.Deliver? { PublishGrows(s.tracked, step.scope); }
    if step.Freeze? { FreezeCovers(s, step.joined); }
  }

  lemma CoversEarlier(c: Copy, t: Tracked, u: Tracked)
    requires Grows(t, u) && Covers(c, u)
    ensures Covers(c, t)
  {
    var more :| c.offences == Merge(u.offences + more);
    var added := u.offences[|t.offences|..] + more;
    assert t.offences + added == u.offences + more;
    forall pid | pid in t.identities ensures HoldsBirth(c.identities, pid, t.identities[pid].birth) {
      assert HoldsBirth(c.identities, pid, u.identities[pid].birth);
    }
  }

  lemma EvolvesOn(s: Pub, m: Pub, later: Pub)
    requires Evolves(s, m) && Evolves(m, later)
    ensures Evolves(s, later)
  {
    if s.phase != Frozen && m.phase != Frozen && later.phase == Frozen {
      CoversEarlier(later.copy.value, s.tracked, m.tracked);
    }
  }

  lemma {:induction false} RunKeepsInv(s: Pub, steps: seq<Step>, later: Pub)
    requires Inv(s) && Continues(s, steps, later)
    ensures Inv(later) && Evolves(s, later)
  {
    if steps != [] {
      var m :| Continues(s, Front(steps), m) && OneStep(m, Last(steps), later);
      RunKeepsInv(s, Front(steps), m);
      StepKeepsInv(m, Last(steps));
      StepEvolves(m, Last(steps));
      EvolvesOn(s, m, later);
    }
  }

  /** The in-flight count is the number of passes started and in no way ended. */
  lemma InflightIsUnfinished(p: Passes)
    requires Accounted(p)
    ensures p.running == Unfinished(p)
  {}

  /** The invariant holds in every state of every run, and the in-flight count is exact. */
  lemma ReachableInv(s: Pub)
    requires Reachable(s)
    ensures Inv(s) && s.inflight == |Unfinished(s.passes)|
  {
    var steps :| Continues(START, steps, s);
    RunKeepsInv(START, steps, s);
    InflightIsUnfinished(s.passes);
  }

  // ---- consequences ----

  /** A copy that no cleanup can call complete. */
  predicate Unsettled(c: Copy) { c.drain in {StillRunningWatcher, DrainUnknown} || c.coverage == CoverageUnknown }

  /** A pass in flight or failed at the freeze leaves an unsettled copy: with a watcher its drain is
      unknown; without one the pass was the main thread's own, it failed, and so did the command. */
  lemma UnsettledAtFreeze(s: Pub, joined: Drain)
    requires Reachable(s) && Enabled(s, Freeze(joined))
    requires s.inflight != 0 || s.failed
    ensures var c := Apply(s, Freeze(joined)).copy.value;
      && Unsettled(c)
      && (s.watching ==> c.drain in {StillRunningWatcher, DrainUnknown})
      && (!s.watching ==> s.inflight == 0 && s.aborted)
  {
    ReachableInv(s);
    if !s.watching {
      NoWatcherNoneRunning(s);
      assert (forall p :: p !in s.passes.broken) ==> s.passes.broken == {};
      var p :| p in s.passes.broken;
    }
  }

  // ---- what published means ----

  lemma {:induction false} AdoptAllDomain(known: map<int, Identity>, candidates: seq<Identity>, pid: int)
    ensures pid in AdoptAll(known, candidates) <==> pid in known || exists c :: c in candidates && c.pid == pid
  {
    if candidates != [] {
      var front, last := candidates[..|candidates| - 1], candidates[|candidates| - 1];
      assert candidates == front + [last];
      AdoptAllDomain(known, front, pid);
      assert forall c :: c in candidates <==> c in front || c == last;
    }
  }

  /** The birth first recorded for the pid of a candidate. */
  function FirstBirth(known: map<int, Identity>, c: Identity): string {
    if c.pid in known then known[c.pid].birth else c.birth
  }

  lemma {:induction false} AdoptAllRecords(known: map<int, Identity>, candidates: seq<Identity>, c: Identity)
    requires Keyed(known) && DistinctPids(candidates) && c in candidates
    ensures c.pid in AdoptAll(known, candidates) && AdoptAll(known, candidates)[c.pid].birth == FirstBirth(known, c)
  {
    var front, last := candidates[..|candidates| - 1], candidates[|candidates| - 1];
    assert candidates == front + [last];
    AdoptAllFacts(known, front);
    if c in front {
      AdoptAllRecords(known, front, c);
    } else {
      AdoptAllDomain(known, front, c.pid);
      assert forall x :: x in front ==> x.pid != last.pid;
    }
  }

  /** The copy holds everything of a scope; of each of its identities the birth that was recorded
      first, `before` being what was tracked when the scope was delivered. */
  ghost predicate InCopy(c: Copy, scope: Scope, before: Tracked) {
    && CopyHolds(c, scope)
    && forall id :: id in scope.identities ==> HoldsBirth(c.identities, id.pid, FirstBirth(before.identities, id))
  }

  ghost predicate CopyHolds(c: Copy, scope: Scope) {
    && scope.trackedPids <= c.pids && scope.trackedPgids <= c.pgids && scope.pidGroups <= c.pidGroups
    && (forall id :: id in scope.observed ==> KeyOf(id) in c.observed)
    && (forall id :: id in scope.identities ==> exists target :: target in c.identities && target.pid == id.pid)
    && (scope.coverage == CoverageUnknown ==> c.coverage == CoverageUnknown)
  }

  lemma CoveredScope(c: Copy, before: Tracked, scope: Scope)
    requires Keyed(before.identities) && SoundScope(scope)
    requires Covers(c, Publish(Learn(before, scope.diagnostic), scope))
    ensures InCopy(c, scope, before)
  {
    RecallKeys(before.observed, scope.observed);
    var t := Publish(Learn(before, scope.diagnostic), scope);
    forall id | id in scope.identities ensures HoldsBirth(c.identities, id.pid, FirstBirth(before.identities, id)) {
      AdoptAllRecords(before.identities, scope.identities, id);
      assert HoldsBirth(c.identities, id.pid, t.identities[id.pid].birth);
    }
  }

  /** What a pass delivers before the freeze is in every copy made later. */
  lemma DeliveredIsCopied(s: Pub, pass: Pass, scope: Scope, steps: seq<Step>, later: Pub)
    requires Reachable(s) && Enabled(s, Deliver(pass, scope)) && s.phase != Frozen
    requires Continues(Apply(s, Deliver(pass, scope)), steps, later) && later.phase == Frozen
    ensures later.copy.Some? && InCopy(later.copy.value, scope, s.tracked)
  {
    ReachableInv(s);
    StepKeepsInv(s, Deliver(pass, scope));
    RunKeepsInv(Apply(s, Deliver(pass, scope)), steps, later);
    CoveredScope(later.copy.value, s.tracked, scope);
  }

  /** The run delivered a scope for this pass, and the state still holds it: in its tracking before the
      freeze, in its copy afterwards. */
  ghost predicate Holds(s: Pub, scope: Scope) {
    if s.phase == Frozen then s.copy.Some? && CopyHolds(s.copy.value, scope) else TrackedHolds(s.tracked, scope)
  }

  ghost predicate TrackedHolds(t: Tracked, scope: Scope) {
    && scope.trackedPids <= t.pids && scope.trackedPgids <= t.pgids && scope.pidGroups <= t.pidGroups
    && (forall id :: id in scope.observed ==> KeyOf(id) in t.observed)
    && (forall id :: id in scope.identities ==> id.pid in t.identities)
    && (scope.coverage == CoverageUnknown ==> t.coverage == CoverageUnknown)
  }

  ghost predicate Delivered(steps: seq<Step>, s: Pub, pass: Pass) {
    exists scope :: Deliver(pass, scope) in steps && Holds(s, scope)
  }

  lemma HoldsOn(m: Pub, later: Pub, scope: Scope)
    requires Evolves(m, later) && Holds(m, scope)
    ensures Holds(later, scope)
  {
    if m.phase != Frozen && later.phase == Frozen {
      forall id | id in scope.identities
        ensures exists target :: target in later.copy.value.identities && target.pid == id.pid
      {
        assert HoldsBirth(later.copy.value.identities, id.pid, m.tracked.identities[id.pid].birth);
      }
    }
  }

  lemma DeliverHolds(m: Pub, pass: Pass, scope: Scope)
    requires Inv(m) && Enabled(m, Deliver(pass, scope)) && m.phase != Frozen
    ensures Holds(Apply(m, Deliver(pass, scope)), scope)
  {
    RecallKeys(m.tracked.observed, scope.observed);
    forall id | id in scope.identities ensures id.pid in AdoptAll(m.tracked.identities, scope.identities) {
      AdoptAllDomain(m.tracked.identities, scope.identities, id.pid);
    }
  }

  /** Every published pass delivered a scope, and all of it is still there. */
  lemma {:induction false} PublishedWasDelivered(steps: seq<Step>, s: Pub)
    requires Continues(START, steps, s)
    ensures Inv(s) && forall pass :: pass in s.passes.published ==> Delivered(steps, s, pass)
  {
    if steps != [] {
      var m :| Continues(START, Front(steps), m) && OneStep(m, Last(steps), s);
      PublishedWasDelivered(Front(steps), m);
      StepKeepsInv(m, Last(steps));
      StepEvolves(m, Last(steps));
      assert steps == Front(steps) + [Last(steps)];
      forall pass | pass in s.passes.published ensures Delivered(steps, s, pass) {
        DeliveredOn(Front(steps), m, Last(steps), pass);
      }
    }
  }

  lemma DeliveredOn(front: seq<Step>, m: Pub, step: Step, pass: Pass)
    requires Inv(m) && Enabled(m, step) && Evolves(m, Apply(m, step))
    requires pass in Apply(m, step).passes.published && (pass in m.passes.published ==> Delivered(front, m, pass))
    ensures Delivered(front + [step], Apply(m, step), pass)
  {
    if pass in m.passes.published {
      StillDelivered(front, m, step, Apply(m, step), pass);
    } else {
      NewlyPublished(m, step, pass);
      DeliverHolds(m, pass, step.scope);
      assert step in front + [step];
    }
  }

  lemma StillDelivered(front: seq<Step>, m: Pub, step: Step, later: Pub, pass: Pass)
    requires Delivered(front, m, pass) && Evolves(m, later)
    ensures Delivered(front + [step], later, pass)
  {
    var scope :| Deliver(pass, scope) in front && Holds(m, scope);
    HoldsOn(m, later, scope);
    assert Deliver(pass, scope) in front + [step];
  }

  /** Only a timely delivery publishes a pass. */
  lemma NewlyPublished(m: Pub, step: Step, pass: Pass)
    requires pass in Apply(m, step).passes.published && pass !in m.passes.published
    ensures step.Deliver? && step.pass == pass && m.phase != Frozen
  {}

  // ---- where the frozen identities come from ----

  /** Some delivered scope of a published pass holds an identity with this pid, group and birth. */
  ghost predicate Brought(steps: seq<Step>, published: set<Pass>, key: ObservedKey) {
    exists pass, scope, id ::
      Deliver(pass, scope) in steps && pass in published && id in scope.identities && KeyOf(id) == key
  }

  lemma {:induction false} AdoptAllOrigin(known: map<int, Identity>, candidates: seq<Identity>, pid: int)
    requires Keyed(known) && pid in AdoptAll(known, candidates)
    ensures var key := KeyOf(AdoptAll(known, candidates)[pid]);
      (pid in known && KeyOf(known[pid]) == key) || exists c :: c in candidates && KeyOf(c) == key
  {
    if candidates != [] {
      var front, last := candidates[..|candidates| - 1], candidates[|candidates| - 1];
      assert candidates == front + [last];
      AdoptAllFacts(known, front);
      if pid in AdoptAll(known, front) && AdoptAll(known, candidates)[pid] == AdoptAll(known, front)[pid] {
        AdoptAllOrigin(known, front, pid);
      } else {
        assert last in candidates && KeyOf(last) == KeyOf(AdoptAll(known, candidates)[pid]);
      }
    }
  }

  ghost predicate AllBrought(steps: seq<Step>, s: Pub) {
    && (s.phase != Frozen ==> forall pid :: pid in s.tracked.identities ==>
          Brought(steps, s.passes.published, KeyOf(s.tracked.identities[pid])))
    && (s.phase == Frozen ==> s.copy.Some? && forall id :: id in s.copy.value.identities ==>
          Brought(steps, s.passes.published, KeyOf(id)))
  }

  lemma BroughtOn(steps: seq<Step>, more: seq<Step>, published: set<Pass>, later: set<Pass>, key: ObservedKey)
    requires Brought(steps, published, key) && published <= later && forall x :: x in steps ==> x in more
    ensures Brought(more, later, key)
  {
    var pass, scope, id :| Deliver(pass, scope) in steps && pass in published && id in scope.identities
      && KeyOf(id) == key;
    assert Deliver(pass, scope) in more;
  }

  lemma DeliverBrings(front: seq<Step>, m: Pub, pass: Pass, scope: Scope)
    requires Inv(m) && Enabled(m, Deliver(pass, scope)) && m.phase != Frozen && AllBrought(front, m)
    ensures AllBrought(front + [Deliver(pass, scope)], Apply(m, Deliver(pass, scope)))
  {
    var steps, s := front + [Deliver(pass, scope)], Apply(m, Deliver(pass, scope));
    forall pid | pid in s.tracked.identities
      ensures Brought(steps, s.passes.published, KeyOf(s.tracked.identities[pid]))
    {
      AdoptAllOrigin(m.tracked.identities, scope.identities, pid);
      var key := KeyOf(s.tracked.identities[pid]);
      if pid in m.tracked.identities && KeyOf(m.tracked.identities[pid]) == key {
        BroughtOn(front, steps, m.passes.published, s.passes.published, key);
      } else {
        var c :| c in scope.identities && KeyOf(c) == key;
        assert Deliver(pass, scope) in steps && pass in s.passes.published;
      }
    }
  }

  lemma TrackedBrought(front: seq<Step>, m: Pub, steps: seq<Step>, published: set<Pass>)
    requires m.phase != Frozen && AllBrought(front, m)
    requires m.passes.published <= published && forall x :: x in front ==> x in steps
    ensures forall pid :: pid in m.tracked.identities ==> Brought(steps, published, KeyOf(m.tracked.identities[pid]))
  {
    forall pid | pid in m.tracked.identities ensures Brought(steps, published, KeyOf(m.tracked.identities[pid])) {
      BroughtOn(front, steps, m.passes.published, published, KeyOf(m.tracked.identities[pid]));
    }
  }

  lemma CopyBrought(front: seq<Step>, m: Pub, steps: seq<Step>, published: set<Pass>)
    requires m.phase == Frozen && AllBrought(front, m)
    requires m.passes.published <= published && forall x :: x in front ==> x in steps
    ensures forall id :: id in m.copy.value.identities ==> Brought(steps, published, KeyOf(id))
  {
    forall id | id in m.copy.value.identities ensures Brought(steps, published, KeyOf(id)) {
      BroughtOn(front, steps, m.passes.published, published, KeyOf(id));
    }
  }

  lemma TargetsAreTracked(m: map<int, Identity>)
    ensures forall id :: id in IdentitiesByPid(m) ==> exists pid :: pid in m && m[pid] == id
  {
    var order := Sorted(m.Keys);
    forall id | id in IdentitiesByPid(m) ensures exists pid :: pid in m && m[pid] == id {
      var i :| 0 <= i < |order| && IdentitiesByPid(m)[i] == id;
      assert order[i] in order && m[order[i]] == id;
    }
  }

  lemma FreezeBrings(front: seq<Step>, m: Pub, joined: Drain)
    requires m.phase != Frozen && AllBrought(front, m)
    ensures AllBrought(front + [Freeze(joined)], Apply(m, Freeze(joined)))
  {
    TrackedBrought(front, m, front + [Freeze(joined)], m.passes.published);
    TargetsAreTracked(m.tracked.identities);
  }

  /** Only the freeze and a timely delivery touch the targets. */
  lemma OtherStepsKeepTargets(m: Pub, step: Step)
    requires Enabled(m, step) && !step.Freeze? && (step.Deliver? ==> m.phase == Frozen)
    ensures var s := Apply(m, step);
      && (s.phase == Frozen <==> m.phase == Frozen) && s.copy == m.copy
      && s.tracked.identities == m.tracked.identities && s.passes.published == m.passes.published
  {}

  lemma OtherBrings(front: seq<Step>, m: Pub, step: Step)
    requires Inv(m) && Enabled(m, step) && AllBrought(front, m) && !step.Freeze?
      && (step.Deliver? ==> m.phase == Frozen)
    ensures AllBrought(front + [step], Apply(m, step))
  {
    OtherStepsKeepTargets(m, step);
    if m.phase == Frozen {
      CopyBrought(front, m, front + [step], m.passes.published);
    } else {
      TrackedBrought(front, m, front + [step], m.passes.published);
    }
  }

  lemma StepBrings(front: seq<Step>, m: Pub, step: Step)
    requires Inv(m) && Enabled(m, step) && AllBrought(front, m)
    ensures AllBrought(front + [step], Apply(m, step))
  {
    if step.Deliver? && m.phase != Frozen {
      DeliverBrings(front, m, step.pass, step.scope);
    } else if step.Freeze? {
      FreezeBrings(front, m, step.joined);
    } else {
      OtherBrings(front, m, step);
    }
  }

  /** Every cleanup target has the pid, group and birth of an identity that a published pass delivered. */
  lemma {:induction false} TargetsWereDelivered(steps: seq<Step>, s: Pub)
    requires Continues(START, steps, s)
    ensures Inv(s) && AllBrought(steps, s)
  {
    if steps != [] {
      var m :| Continues(START, Front(steps), m) && OneStep(m, Last(steps), s);
      TargetsWereDelivered(Front(steps), m);
      StepKeepsInv(m, Last(steps));
      assert steps == Front(steps) + [Last(steps)];
      StepBrings(Front(steps), m, Last(steps));
    }
  }

  // ---- nothing in the copy is invented ----

  /** One thing that tracking holds: a process, a group, a pair of them, or an observed identity. */
  datatype Fact = OnePid(pid: int) | OneGroup(pgid: int) | OnePair(pair: (int, int)) | OneKey(key: ObservedKey)

  ghost predicate ScopeHas(scope: Scope, x: Fact) {
    match x
    case OnePid(pid) => pid in scope.trackedPids
    case OneGroup(pgid) => pgid in scope.trackedPgids
    case OnePair(pair) => pair in scope.pidGroups
    case OneKey(key) => exists id :: id in scope.observed && KeyOf(id) == key
  }

  predicate TrackedHas(t: Tracked, x: Fact) {
    match x
    case OnePid(pid) => pid in t.pids
    case OneGroup(pgid) => pgid in t.pgids
    case OnePair(pair) => pair in t.pidGroups
    case OneKey(key) => key in t.observed
  }

  predicate MainHas(s: Pub, x: Fact) {
    (x.OnePid? && x.pid in s.mainPids) || (x.OneGroup? && x.pgid in s.mainPgids)
  }

  predicate CopyHas(c: Copy, x: Fact) {
    match x
    case OnePid(pid) => pid in c.pids
    case OneGroup(pgid) => pgid in c.pgids
    case OnePair(pair) => pair in c.pidGroups
    case OneKey(key) => key in c.observed
  }

  /** A pass that was published in time delivered it, or the main thread found it after the exit. */
  ghost predicate Brings(step: Step, published: set<Pass>, x: Fact) {
    || (step.Deliver? && step.pass in published && ScopeHas(step.scope, x))
    || (step.PostExit? && ((x.OnePid? && x.pid in step.pids) || (x.OneGroup? && x.pgid in step.pgids)))
  }

  ghost predicate Origin(steps: seq<Step>, published: set<Pass>, x: Fact) {
    exists step :: step in steps && Brings(step, published, x)
  }

  ghost predicate HasOrigin(steps: seq<Step>, s: Pub, x: Fact) {
    && (s.phase != Frozen && (TrackedHas(s.tracked, x) || MainHas(s, x)) ==> Origin(steps, s.passes.published, x))
    && (s.phase == Frozen && s.copy.Some? && CopyHas(s.copy.value, x) ==> Origin(steps, s.passes.published, x))
  }

  lemma {:induction false} RecallOrigin(observed: map<ObservedKey, Identity>, ids: seq<Identity>, key: ObservedKey)
    requires key in Recall(observed, ids) && key !in observed
    ensures exists id :: id in ids && KeyOf(id) == key
  {
    var front, last := ids[..|ids| - 1], ids[|ids| - 1];
    assert ids == front + [last];
    if KeyOf(last) == key { assert last in ids; } else { RecallOrigin(observed, front, key); }
  }

  lemma PublishAdds(t: Tracked, scope: Scope, x: Fact)
    requires TrackedHas(Publish(Learn(t, scope.diagnostic), scope), x)
    ensures TrackedHas(t, x) || ScopeHas(scope, x)
  {
    if x.OneKey? && x.key !in t.observed { RecallOrigin(t.observed, scope.observed, x.key); }
  }

  lemma OriginOn(steps: seq<Step>, step: Step, published: set<Pass>, later: set<Pass>, x: Fact)
    requires published <= later && (Origin(steps, published, x) || Brings(step, later, x))
    ensures Origin(steps + [step], later, x)
  {
    if Origin(steps, published, x) {
      var earlier :| earlier in steps && Brings(earlier, published, x);
      assert earlier in steps + [step] && Brings(earlier, later, x);
    } else {
      assert step in steps + [step];
    }
  }

  /** A step adds only what it brings. */
  lemma StepAdds(m: Pub, step: Step, x: Fact)
    requires Enabled(m, step) && m.phase != Frozen
    ensures var s := Apply(m, step);
      && m.passes.published <= s.passes.published
      && (s.phase != Frozen && (TrackedHas(s.tracked, x) || MainHas(s, x)) ==>
            TrackedHas(m.tracked, x) || MainHas(m, x) || Brings(step, s.passes.published, x))
      && (s.phase == Frozen && CopyHas(s.copy.value, x) ==> TrackedHas(m.tracked, x) || MainHas(m, x))
  {
    if step.Deliver? && TrackedHas(Apply(m, step).tracked, x) { PublishAdds(m.tracked, step.scope, x); }
  }

  lemma FrozenAdds(m: Pub, step: Step)
    requires Enabled(m, step) && m.phase == Frozen
    ensures Apply(m, step).phase == Frozen && Apply(m, step).copy == m.copy
    ensures Apply(m, step).passes.published == m.passes.published
  {}

  /** Whatever is tracked, and whatever is in the copy, was brought by a step of this run: no number, pair
      or identity is invented. */
  lemma {:induction false} NothingInvented(steps: seq<Step>, s: Pub, x: Fact)
    requires Continues(START, steps, s)
    ensures HasOrigin(steps, s, x)
  {
    if steps != [] {
      var m :| Continues(START, Front(steps), m) && OneStep(m, Last(steps), s);
      assert steps == Front(steps) + [Last(steps)];
      NothingInvented(Front(steps), m, x);
      if m.phase == Frozen {
        FrozenAdds(m, Last(steps));
      } else {
        StepAdds(m, Last(steps), x);
      }
      var published := s.passes.published;
      if Origin(Front(steps), m.passes.published, x) || Brings(Last(steps), published, x) {
        OriginOn(Front(steps), Last(steps), m.passes.published, published, x);
      }
    }
  }

  // ---- the numbers of the main thread, and moved groups ----

  predicate NoCopying(steps: seq<Step>) { forall step :: step in steps ==> !step.CopyNumbers? }

  /** Noted by the main thread, and in the copy once there is one. */
  predicate Noted(s: Pub, pids: set<int>, pgids: set<int>) {
    if s.phase == Frozen then s.copy.Some? && pids <= s.copy.value.pids && pgids <= s.copy.value.pgids
    else pids <= s.mainPids && pgids <= s.mainPgids
  }

  lemma NotedOn(s: Pub, step: Step, pids: set<int>, pgids: set<int>)
    requires Enabled(s, step) && !step.CopyNumbers? && Noted(s, pids, pgids)
    ensures Noted(Apply(s, step), pids, pgids)
  {}

  lemma {:induction false} NotedStays(s: Pub, steps: seq<Step>, later: Pub, pids: set<int>, pgids: set<int>)
    requires Continues(s, steps, later) && NoCopying(steps) && Noted(s, pids, pgids)
    ensures Noted(later, pids, pgids)
  {
    if steps != [] {
      var m :| Continues(s, Front(steps), m) && OneStep(m, Last(steps), later);
      assert steps == Front(steps) + [Last(steps)];
      NotedStays(s, Front(steps), m, pids, pgids);
      NotedOn(m, Last(steps), pids, pgids);
    }
  }

  /** The numbers that the main thread finds after the child's exit are in the copy, next to those it
      had; a failed scan leaves the coverage of the copy unknown. */
  lemma PostExitIsCopied(s: Pub, pids: set<int>, pgids: set<int>, unknown: bool, steps: seq<Step>, later: Pub)
    requires Reachable(s) && Enabled(s, PostExit(pids, pgids, unknown))
    requires Continues(Apply(s, PostExit(pids, pgids, unknown)), steps, later) && later.phase == Frozen
      && NoCopying(steps)
    ensures later.copy.Some?
    ensures s.mainPids + pids <= later.copy.value.pids && s.mainPgids + pgids <= later.copy.value.pgids
    ensures unknown ==> later.copy.value.coverage == CoverageUnknown
  {
    var next := Apply(s, PostExit(pids, pgids, unknown));
    NotedStays(next, steps, later, s.mainPids + pids, s.mainPgids + pgids);
    ReachableInv(s);
    StepKeepsInv(s, PostExit(pids, pgids, unknown));
    RunKeepsInv(next, steps, later);
  }

  /** What a delivered list of identities does to the one recorded for a pid: nothing if the pid is not
      in it or comes with another birth; with the recorded birth its group moves along. */
  lemma {:induction false} AdoptAllMeans(known: map<int, Identity>, candidates: seq<Identity>, c: Identity)
    requires Keyed(known) && DistinctPids(candidates) && c in candidates
    ensures var after := AdoptAll(known, candidates);
      && c.pid in after
      && after[c.pid] == if c.pid !in known then c
                         else if known[c.pid].birth == c.birth then known[c.pid].(pgid := c.pgid)
                         else known[c.pid]
  {
    var front, last := candidates[..|candidates| - 1], candidates[|candidates| - 1];
    LastIsNew(candidates);
    if c in front {
      AdoptAllMeans(known, front, c);
    } else {
      AdoptAllLeaves(known, front, c.pid);
    }
  }

  lemma LastIsNew(candidates: seq<Identity>)
    requires DistinctPids(candidates) && candidates != []
    ensures var front, last := candidates[..|candidates| - 1], candidates[|candidates| - 1];
      && DistinctPids(front) && (forall x :: x in front ==> x.pid != last.pid)
      && (forall x :: x in candidates <==> x in front || x == last)
  {
    var front, last := candidates[..|candidates| - 1], candidates[|candidates| - 1];
    assert candidates == front + [last];
    forall x | x in front ensures x.pid != last.pid {
      var i :| 0 <= i < |front| && front[i] == x;
      assert candidates[i].pid != candidates[|front|].pid;
    }
  }

  lemma {:induction false} AdoptAllLeaves(known: map<int, Identity>, candidates: seq<Identity>, pid: int)
    requires forall c :: c in candidates ==> c.pid != pid
    ensures pid in AdoptAll(known, candidates) <==> pid in known
    ensures pid in known ==> AdoptAll(known, candidates)[pid] == known[pid]
  {
    if candidates != [] {
      assert candidates[|candidates| - 1] in candidates;
      assert forall c :: c in candidates[..|candidates| - 1] ==> c in candidates;
      AdoptAllLeaves(known, candidates[..|candidates| - 1], pid);
    }
  }

  /** The drain status "discarded" cannot be recorded: its flag is raised only after the freeze. */
  lemma DiscardedUnreachable(s: Pub)
    requires Reachable(s) && s.phase == Frozen
    ensures s.copy.Some? && s.copy.value.drain != Discarded
  {
    ReachableInv(s);
  }

  /** A late pass changes live tracking at most; the frozen targets and evidence stay as copied. */
  lemma FrozenCopyIsFinal(s: Pub, steps: seq<Step>, later: Pub)
    requires Reachable(s) && s.phase == Frozen && Continues(s, steps, later)
    ensures later.phase == Frozen && later.copy == s.copy && later.passes.published == s.passes.published
  {
    ReachableInv(s);
    RunKeepsInv(s, steps, later);
    PublishedIsFinal(s, steps, later);
  }

  lemma FrozenStays(s: Pub, step: Step)
    requires Enabled(s, step) && s.phase == Frozen
    ensures Apply(s, step).phase == Frozen && Apply(s, step).passes.published == s.passes.published
  {}

  lemma {:induction false} PublishedIsFinal(s: Pub, steps: seq<Step>, later: Pub)
    requires Inv(s) && s.phase == Frozen && Continues(s, steps, later)
    ensures later.phase == Frozen && later.passes.published == s.passes.published
  {
    if steps != [] {
      var m :| Continues(s, Front(steps), m) && OneStep(m, Last(steps), later);
      PublishedIsFinal(s, Front(steps), m);
      FrozenStays(m, Last(steps));
    }
  }
}
