/**
 The lock sections of a watched command as they are written: fields updated in place, one method per
 section, each refining its atomic step of the publication protocol. A capture pass joins two of
 them with the reads between.
 */
module LockSections {
  import opened Base
  import opened Processes
  import opened OperatingSystem
  import opened Merging
  import opened Cleanup
  import opened CapturePasses
  import opened Admission
  import opened Publication
  import opened Provenance

  /** The states that a run goes through, from the start. */
  ghost predicate IsRun(states: seq<Pub>, steps: seq<Step>) {
    && |states| == |steps| + 1 && states[0] == START
    && forall n {:trigger steps[n]} :: 0 <= n < |steps| ==> OneStep(states[n], steps[n], states[n + 1])
  }

  lemma {:induction false} RunReaches(states: seq<Pub>, steps: seq<Step>)
    requires IsRun(states, steps)
    ensures Continues(START, steps, states[|steps|])
  {
    if steps != [] {
      RunReaches(states[..|steps|], Front(steps));
      assert OneStep(states[|steps| - 1], steps[|steps| - 1], states[|steps|]);
    }
  }

  lemma RunGrows(states: seq<Pub>, steps: seq<Step>, step: Step)
    requires IsRun(states, steps) && Enabled(states[|steps|], step)
    ensures IsRun(states + [Apply(states[|steps|], step)], steps + [step])
  {
    var later, more := states + [Apply(states[|steps|], step)], steps + [step];
    forall n | 0 <= n < |more| ensures OneStep(later[n], more[n], later[n + 1]) {
      if n < |steps| { assert OneStep(states[n], steps[n], states[n + 1]); }
    }
  }

  /** The record of a run that led here: its states, its steps and the captures behind its deliveries. */
  ghost predicate Recorded(states: seq<Pub>, steps: seq<Step>, captures: Captures, root: Option<Identity>, s: Pub) {
    IsRun(states, steps) && states[|steps|] == s && FromCaptures(steps, captures, root)
  }

  /** Whatever is recorded is a run of the protocol, so every result about runs holds of it. */
  lemma RecordedIsRun(states: seq<Pub>, steps: seq<Step>, captures: Captures, root: Option<Identity>, s: Pub)
    requires Recorded(states, steps, captures, root, s)
    ensures Continues(START, steps, s) && Inv(s)
  {
    RunReaches(states, steps);
    ReachableInv(s);
  }

  lemma EnabledFits(s: Pub, step: Step)
    requires Inv(s) && Enabled(s, step)
    ensures Accounted(s.passes) && (step.Deliver? ==> step.pass in s.passes.running)
  {}

  lemma RecordedOn(states: seq<Pub>, steps: seq<Step>, captures: Captures, root: Option<Identity>, s: Pub,
                   step: Step, captured: Captures)
    requires Recorded(states, steps, captures, root, s) && Enabled(s, step) && Backed(step, captured, root)
    ensures Recorded(states + [Apply(s, step)], steps + [step], WithCapture(captures, step, captured), root,
                     Apply(s, step))
  {
    RecordedIsRun(states, steps, captures, root, s);
    EnabledFits(s, step);
    RunGrows(states, steps, step);
    CapturesGrow(steps, captures, root, s, step, captured);
  }

  predicate Ends(step: Step, pass: Pass) { (step.Deliver? || step.Break?) && step.pass == pass }

  function Ending(pass: Pass, scope: Option<Scope>): Step {
    if scope.Some? then Deliver(pass, scope.value) else Break(pass)
  }

  /** The step can be taken wherever these steps lead. */
  ghost predicate Permits(steps: seq<Step>, step: Step) {
    forall states :: IsRun(states, steps) ==> Enabled(states[|steps|], step)
  }

  /** Other threads can take these steps in this order while the pass is running, and captures of
      theirs stand behind what they deliver. */
  ghost predicate OthersCan(steps: seq<Step>, others: seq<Step>, pass: Pass, theirs: Captures, root: Option<Identity>) {
    forall n :: 0 <= n < |others| ==>
      Permits(steps + others[..n], others[n]) && Backed(others[n], theirs, root) && !Ends(others[n], pass)
  }

  lemma KeepsRunning(s: Pub, step: Step, pass: Pass)
    requires pass in s.passes.running && !Ends(step, pass)
    ensures pass in Apply(s, step).passes.running
  {}

  class WatchedCommand {
    var state: PubPhase
    var capturesInFlight: int
    var captureFailed: bool
    var publicationDiscarded: bool
    var tracked: Tracked
    var mainPids: set<int>
    var mainPgids: set<int>
    var copy: Option<Copy>
    var watching: bool
    ghost var aborted: bool
    ghost var passes: Passes

    /** The steps performed so far with the states they led through, the captures behind their
        deliveries, and the root that admission is bound to; without an admission no pass runs. */
    ghost var history: seq<Step>
    ghost var states: seq<Pub>
    ghost var captures: Captures
    ghost const root: Option<Identity>

    constructor (ghost root: Option<Identity>)
      ensures Valid() && View() == START && history == [] && captures == map[] && this.root == root
    {
      state, capturesInFlight, captureFailed, publicationDiscarded := Open, 0, false, false;
      tracked := NOTHING_TRACKED;
      mainPids, mainPgids, copy, watching, aborted := {}, {}, None, false, false;
      passes := Passes({}, {}, {}, {}, {});
      history, states, captures, this.root := [], [START], map[], root;
    }

    /** The fields are where the recorded steps lead, and each scope delivered in them holds only
        what the recorded capture of its pass admitted. */
    ghost predicate Valid()
      reads this
    {
      Recorded(states, history, captures, root, View())
    }

    ghost function View(): Pub
      reads this
    {
      Pub(state, capturesInFlight, captureFailed, publicationDiscarded,
          tracked, mainPids, mainPgids, copy, watching, aborted, passes)
    }

    /** Records the step that the fields have just taken. */
    ghost method Log(step: Step, before: Pub, captured: Captures)
      requires Recorded(states, history, captures, root, before) && Enabled(before, step)
        && Backed(step, captured, root)
      requires View() == Apply(before, step)
      modifies this`history, this`states, this`captures
      ensures Valid() && Inv(View()) && View() == old(View())
      ensures history == old(history) + [step] && captures == WithCapture(old(captures), step, captured)
    {
      RecordedOn(states, history, captures, root, before, step, captured);
      captures, states, history := WithCapture(captures, step, captured), states + [View()], history + [step];
      RecordedIsRun(states, history, captures, root, View());
    }

    /** A pass registers itself, unless admission to publication is over. */
    method BeginCapture(ghost pass: Pass) returns (registered: bool)
      requires Valid() && Enabled(View(), Begin(pass))
      modifies this
      ensures Valid() && Inv(View()) && View() == Apply(old(View()), Begin(pass))
      ensures history == old(history) + [Begin(pass)] && captures == old(captures)
      ensures registered <==> old(state) == Open
    {
      ghost var before := View();
      registered := Register(pass);
      Log(Begin(pass), before, captures);
    }

    method Register(ghost pass: Pass) returns (registered: bool)
      modifies this`capturesInFlight, this`passes
      ensures View() == Apply(old(View()), Begin(pass))
      ensures registered <==> state == Open
    {
      registered := state == Open;
      if !registered { return; }
      capturesInFlight := capturesInFlight + 1;
      passes := Started(passes, pass);
    }

    /** The pass ends with a scope: published while open or draining, discarded once frozen. */
    method PublishCapture(ghost pass: Pass, scope: Scope, ghost parts: Parts)
      requires Valid() && Enabled(View(), Deliver(pass, scope)) && AdmittedAll(scope, parts, root)
      modifies this
      ensures Valid() && Inv(View()) && View() == Apply(old(View()), Deliver(pass, scope))
      ensures history == old(history) + [Deliver(pass, scope)] && captures == old(captures)[pass := parts]
    {
      ghost var before := View();
      EndWithScope(pass, scope);
      Log(Deliver(pass, scope), before, map[pass := parts]);
    }

    method EndWithScope(ghost pass: Pass, scope: Scope)
      requires Enabled(View(), Deliver(pass, scope))
      modifies this`capturesInFlight, this`publicationDiscarded, this`tracked, this`passes
      ensures View() == Apply(old(View()), Deliver(pass, scope))
    {
      capturesInFlight := capturesInFlight - 1;
      if scope.coverage == CoverageUnknown { NoteUnknown(scope.diagnostic); }
      passes := Ended(passes, pass);
      if state == Frozen {
        publicationDiscarded := true;
        passes := passes.(late := passes.late + {pass});
        return;
      }
      passes := passes.(published := passes.published + {pass});
      Extend(scope);
    }

    /** The first diagnostic stays. */
    method NoteUnknown(why: Option<Diagnostic>)
      requires why.Some?
      modifies this`tracked
      ensures tracked == Learn(old(tracked), why)
    {
      tracked := tracked.(coverage := CoverageUnknown);
      if tracked.why.None? { tracked := tracked.(why := why); }
    }

    method Extend(scope: Scope)
      modifies this`tracked
      ensures tracked == Publish(old(tracked), scope)
    {
      var observed, identities := tracked.observed, tracked.identities;
      for n := 0 to |scope.observed|
        invariant tracked == old(tracked)
        invariant observed == Recall(tracked.observed, scope.observed[..n])
      {
        assert scope.observed[..n + 1][..n] == scope.observed[..n];
        observed := observed[KeyOf(scope.observed[n]) := scope.observed[n]];
      }
      assert scope.observed[..|scope.observed|] == scope.observed;
      for n := 0 to |scope.identities|
        invariant tracked == old(tracked)
        invariant identities == AdoptAll(tracked.identities, scope.identities[..n])
      {
        assert scope.identities[..n + 1][..n] == scope.identities[..n];
        var candidate := scope.identities[n];
        if candidate.pid !in identities {
          identities := identities[candidate.pid := candidate];
        } else {
          var id := identities[candidate.pid];
          if id.birth == candidate.birth && id.pgid != candidate.pgid {
            identities := identities[candidate.pid := Identity(id.pid, candidate.pgid, id.birth, id.initial)];
          }
        }
      }
      assert scope.identities[..|scope.identities|] == scope.identities;
      tracked := tracked.(
        pids := tracked.pids + scope.trackedPids, pgids := tracked.pgids + scope.trackedPgids,
        pidGroups := tracked.pidGroups + scope.pidGroups, identities := identities, observed := observed,
        offences := tracked.offences + scope.offences);
    }

    /** The pass ends with an exception: coverage is unknown from now on. */
    method FailCapture(ghost pass: Pass)
      requires Valid() && Enabled(View(), Break(pass))
      modifies this
      ensures Valid() && Inv(View()) && View() == Apply(old(View()), Break(pass))
      ensures history == old(history) + [Break(pass)] && captures == old(captures)
    {
      ghost var before := View();
      EndWithException(pass);
      Log(Break(pass), before, captures);
    }

    method EndWithException(ghost pass: Pass)
      requires Enabled(View(), Break(pass))
      modifies this`capturesInFlight, this`captureFailed, this`tracked, this`passes, this`aborted
      ensures View() == Apply(old(View()), Break(pass))
    {
      capturesInFlight := capturesInFlight - 1;
      captureFailed := true;
      NoteUnknown(Some(CAPTURE_FAILURE));
      passes := Ended(passes, pass).(broken := passes.broken + {pass});
      aborted := aborted || pass.MainPass?;
    }

    /** Stops new passes; those already registered may still publish. */
    method DrainPublication()
      requires Valid() && Enabled(View(), StartDraining)
      modifies this`state, this`history, this`states, this`captures
      ensures Valid() && Inv(View()) && View() == Apply(old(View()), StartDraining)
      ensures history == old(history) + [StartDraining] && captures == old(captures)
    {
      ghost var before := View();
      state := Draining;
      Log(StartDraining, before, captures);
    }

    /** Makes the one copy that cleanup works on. */
    method FreezePublication(joined: Drain) returns (taken: Copy)
      requires Valid() && Enabled(View(), Freeze(joined))
      modifies this`state, this`copy, this`history, this`states, this`captures
      ensures Valid() && Inv(View()) && View() == Apply(old(View()), Freeze(joined))
      ensures history == old(history) + [Freeze(joined)] && captures == old(captures)
      ensures copy == Some(taken)
    {
      ghost var before := View();
      taken := FreezeAndCopy(joined);
      Log(Freeze(joined), before, captures);
    }

    method FreezeAndCopy(joined: Drain) returns (taken: Copy)
      requires Enabled(View(), Freeze(joined))
      modifies this`state, this`copy
      ensures View() == Apply(old(View()), Freeze(joined))
      ensures copy == Some(taken)
    {
      state := Frozen;
      var drain := joined;
      if (captureFailed || capturesInFlight != 0) && drain == Drained {
        drain := DrainUnknown;
      } else if publicationDiscarded && drain == Drained {
        drain := Discarded;
      }
      var merged := MergeObservations(tracked.offences);
      taken := Copy(IdentitiesByPid(tracked.identities), tracked.observed, mainPids + tracked.pids,
                    mainPgids + tracked.pgids, tracked.pidGroups, tracked.coverage, tracked.why, merged, drain);
      copy := Some(taken);
    }

    /** What the main thread notes between its passes. */
    method NoteMain(step: Step)
      requires step.Watch? || step.Abort? || step.CopyNumbers? || step.PostExit?
      requires Valid() && Enabled(View(), step)
      modifies this
      ensures Valid() && Inv(View()) && View() == Apply(old(View()), step)
      ensures history == old(history) + [step] && captures == old(captures)
    {
      ghost var before := View();
      ChangeFields(step);
      Log(step, before, captures);
    }

    method ChangeFields(step: Step)
      requires step.Watch? || step.Abort? || step.CopyNumbers? || step.PostExit?
      modifies this`watching, this`aborted, this`mainPids, this`mainPgids, this`tracked
      ensures View() == Apply(old(View()), step)
    {
      match step
      case Watch => watching := true;
      case Abort => aborted := true;
      case CopyNumbers => mainPids, mainPgids := tracked.pids, tracked.pgids;
      case PostExit(pids, pgids, unknown) =>
        mainPids, mainPgids := mainPids + pids, mainPgids + pgids;
        if unknown { NoteUnknown(Some(Diagnostic(PostExitSnapshot, SnapshotFailure))); }
    }

    /** Every enabled step of the protocol is performed by one of the sections, and by nothing else. */
    method Perform(step: Step, ghost captured: Captures)
      requires Valid() && Enabled(View(), step) && Backed(step, captured, root)
      modifies this
      ensures Valid() && Inv(View()) && View() == Apply(old(View()), step)
      ensures history == old(history) + [step] && captures == WithCapture(old(captures), step, captured)
    {
      match step
      case Begin(pass) => var registered := BeginCapture(pass);
      case Deliver(pass, scope) => PublishCapture(pass, scope, captured[pass]);
      case Break(pass) => FailCapture(pass);
      case StartDraining => DrainPublication();
      case Freeze(joined) => var taken := FreezePublication(joined);
      case _ => NoteMain(step);
    }

    method TakeStep(step: Step, ghost theirs: Captures, ghost pass: Pass)
      requires Valid() && pass in passes.running
      requires Permits(history, step) && Backed(step, theirs, root) && !Ends(step, pass)
      modifies this
      ensures Valid() && pass in passes.running && history == old(history) + [step]
    {
      KeepsRunning(View(), step, pass);
      Perform(step, theirs);
    }

    lemma OneMoreStep(before: seq<Step>, others: seq<Step>, n: nat)
      requires n < |others|
      ensures before + others[..n] + [others[n]] == before + others[..n + 1]
    {
      assert others[..n + 1] == others[..n] + [others[n]];
    }

    method LetOthersAct(others: seq<Step>, ghost theirs: Captures, ghost pass: Pass)
      requires Valid() && pass in passes.running && OthersCan(history, others, pass, theirs, root)
      modifies this
      ensures Valid() && pass in passes.running && history == old(history) + others
    {
      for n := 0 to |others|
        invariant Valid() && pass in passes.running && history == old(history) + others[..n]
      {
        TakeStep(others[n], theirs, pass);
        OneMoreStep(old(history), others, n);
      }
      assert others[..|others|] == others;
    }

    /** The end of a registered pass: with a scope, or with an exception. */
    method EndCapture(ghost pass: Pass, scope: Option<Scope>, ghost parts: Parts)
      requires Valid() && pass in passes.running
      requires scope.Some? ==> SoundScope(scope.value) && AdmittedAll(scope.value, parts, root)
      modifies this
      ensures Valid() && history == old(history) + [Ending(pass, scope)]
      ensures scope.Some? ==> pass in captures && captures[pass] == parts
    {
      if scope.Some? { PublishCapture(pass, scope.value, parts); } else { FailCapture(pass); }
    }

    /** What a registered pass does: two bracketed tree scans with all their reads, while the other
        threads take steps of their own, then its end; an exception fails it. */
    method CaptureRegistered(admission: RootBoundAdmission, os: Os, ghost pass: Pass,
                             others: seq<Step>, ghost theirs: Captures, interrupted: bool)
      returns (scope: Option<Scope>, ghost parts: Parts)
      requires Valid() && pass in passes.running && admission.Bound() && admission.root == root
      requires OthersCan(history, others, pass, theirs, root)
      modifies this, admission, os
      ensures Valid() && os.trace == old(os.trace) + parts.Flat() && NoSignals(parts.Flat())
      ensures history == old(history) + others + [Ending(pass, scope)]
      ensures scope.None? <==> interrupted || admission.CaptureRejected(parts)
      ensures scope.Some? ==> pass in captures && captures[pass] == parts && CapturedBy(scope.value, admission, parts)
    {
      LetOthersAct(others, theirs, pass);
      var captured, read, seg := admission.CaptureScope(os);
      scope, parts := if interrupted then None else captured, read;
      EndCapture(pass, scope, parts);
    }

    /** The scope is sound and holds only what these parts admit; if admission is still open, all of it.
        Its numbers, diagnostic, pairs and observed identities are those of the scans and reads in them. */
    ghost predicate CapturedBy(scope: Scope, admission: RootBoundAdmission, parts: Parts)
      reads this, admission
    {
      && ScopeFrom(scope, parts, admission.rootPid, admission.rootPgid)
      && HistoryFrom(scope, parts, root, admission.rootPid, admission.rootPgid, !admission.closed)
      && SoundScope(scope) && AdmittedAll(scope, parts, root) && !admission.CaptureRejected(parts)
      && (!admission.closed && root.Some? ==> forall id :: Admitted(parts, root.value, id) ==> id in scope.identities)
    }

    /** One capture pass, of any thread, from its registration to its end; `interrupted` says whether
        anything but a read that cannot be recorded raises in it. */
    method CaptureIdentities(admission: RootBoundAdmission, os: Os, ghost pass: Pass,
                             others: seq<Step>, ghost theirs: Captures, interrupted: bool)
      returns (registered: bool, scope: Option<Scope>, ghost parts: Parts)
      requires Valid() && Enabled(View(), Begin(pass)) && admission.Bound() && admission.root == root
      requires OthersCan(history + [Begin(pass)], others, pass, theirs, root)
      modifies this, admission, os
      ensures Valid() && NoSignals(parts.Flat())
      ensures registered <==> old(state) == Open
      ensures !registered ==>
        os.trace == old(os.trace) && scope.None? && View() == old(View()) && captures == old(captures)
      ensures registered ==>
        && os.trace == old(os.trace) + parts.Flat()
        && history == old(history) + [Begin(pass)] + others + [Ending(pass, scope)]
        && (scope.None? <==> interrupted || admission.CaptureRejected(parts))
      ensures scope.Some? ==> pass in captures && captures[pass] == parts && CapturedBy(scope.value, admission, parts)
    {
      scope, parts := None, Parts([], [], [], [], [], [], [], None);
      registered := BeginCapture(pass);
      if !registered { return; }
      scope, parts := CaptureRegistered(admission, os, pass, others, theirs, interrupted);
    }
  }
}
