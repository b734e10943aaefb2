/**
 Where cleanup targets come from: the captures whose scopes were published before the freeze, each
 given by the parts of the trace it read.
 */
module Provenance {
  import opened Base
  import opened Processes
  import opened CapturePasses
  import opened Admission
  import opened Publication

  /** What each pass read, for the passes that ended with a scope. */
  type Captures = map<Pass, Parts>

  /** Every scope delivered in the run holds only what the capture of its own pass admitted. */
  ghost predicate FromCaptures(steps: seq<Step>, captures: Captures, root: Option<Identity>) {
    forall pass, scope :: Deliver(pass, scope) in steps ==>
      pass in captures && AdmittedAll(scope, captures[pass], root)
  }

  /** A delivery comes with a capture that admitted it. */
  ghost predicate Backed(step: Step, captured: Captures, root: Option<Identity>) {
    step.Deliver? ==> step.pass in captured && AdmittedAll(step.scope, captured[step.pass], root)
  }

  function WithCapture(captures: Captures, step: Step, captured: Captures): Captures
    requires step.Deliver? ==> step.pass in captured
  {
    if step.Deliver? then captures[step.pass := captured[step.pass]] else captures
  }

  function HaveDelivered(p: Passes): set<Pass> { p.published + p.late }

  lemma StepKeepsDelivered(s: Pub, step: Step)
    ensures HaveDelivered(s.passes) <= HaveDelivered(Apply(s, step).passes)
    ensures step.Deliver? ==> step.pass in HaveDelivered(Apply(s, step).passes)
  {}

  /** A pass that delivered has ended, so no pass delivers twice. */
  lemma {:induction false} DeliveredEnded(steps: seq<Step>, s: Pub)
    requires Continues(START, steps, s)
    ensures forall pass, scope :: Deliver(pass, scope) in steps ==> pass in HaveDelivered(s.passes)
  {
    if steps != [] {
      var m :| Continues(START, Front(steps), m) && OneStep(m, Last(steps), s);
      DeliveredEnded(Front(steps), m);
      StepKeepsDelivered(m, Last(steps));
      assert steps == Front(steps) + [Last(steps)];
    }
  }

  /** A pass that can still deliver a scope has delivered none. */
  lemma NotYetDelivered(steps: seq<Step>, s: Pub, pass: Pass)
    requires Continues(START, steps, s) && Accounted(s.passes) && pass in s.passes.running
    ensures forall scope :: Deliver(pass, scope) !in steps
  {
    DeliveredEnded(steps, s);
  }

  lemma AddCapture(steps: seq<Step>, captures: Captures, root: Option<Identity>, pass: Pass, scope: Scope, parts: Parts)
    requires FromCaptures(steps, captures, root) && AdmittedAll(scope, parts, root)
    requires forall other :: Deliver(pass, other) !in steps
    ensures FromCaptures(steps + [Deliver(pass, scope)], captures[pass := parts], root)
  {
    var more, now := steps + [Deliver(pass, scope)], captures[pass := parts];
    forall p, x | Deliver(p, x) in more ensures p in now && AdmittedAll(x, now[p], root) {
      assert Deliver(p, x) in steps || Deliver(p, x) == Deliver(pass, scope);
    }
  }

  /** One more step, with the capture behind it if it delivers a scope: the captures of earlier
      deliveries stay, for the pass of this one was still running. */
  lemma CapturesGrow(steps: seq<Step>, captures: Captures, root: Option<Identity>, s: Pub, step: Step,
                     captured: Captures)
    requires Continues(START, steps, s) && Accounted(s.passes) && (step.Deliver? ==> step.pass in s.passes.running)
    requires FromCaptures(steps, captures, root) && Backed(step, captured, root)
    ensures FromCaptures(steps + [step], WithCapture(captures, step, captured), root)
  {
    if step.Deliver? {
      NotYetDelivered(steps, s, step.pass);
      AddCapture(steps, captures, root, step.pass, step.scope, captured[step.pass]);
    }
  }

  /** A pass published before the freeze delivered this process, and its capture admitted it. */
  ghost predicate AdmittedIn(steps: seq<Step>, published: set<Pass>, captures: Captures, root: Option<Identity>,
                             key: ObservedKey)
  {
    exists pass, scope, id ::
      && Deliver(pass, scope) in steps && pass in published && id in scope.identities && KeyOf(id) == key
      && pass in captures && RootOrAdmitted(id, captures[pass], root)
  }

  /** Every target of the frozen copy has the pid, group and birth of the root, or of a process that
      was admitted in the trace of a pass published before the freeze. */
  lemma FrozenTargetsAdmitted(steps: seq<Step>, s: Pub, copy: Copy, captures: Captures, root: Option<Identity>,
                              target: Identity)
    requires Continues(START, steps, s) && s.phase == Frozen && s.copy == Some(copy)
    requires FromCaptures(steps, captures, root) && target in copy.identities
    ensures AdmittedIn(steps, s.passes.published, captures, root, KeyOf(target))
  {
    TargetsWereDelivered(steps, s);
    var pass, scope, id :| Deliver(pass, scope) in steps && pass in s.passes.published && id in scope.identities
      && KeyOf(id) == KeyOf(target);
    assert AdmittedAll(scope, captures[pass], root);
  }
}
