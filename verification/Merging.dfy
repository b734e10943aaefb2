/**
 Merging of private offending observations: identical observations collapse into one entry that
 counts occurrences; an observation without a count is never merged with anything.
 */
module Merging {
  import opened Base
  import opened Processes

  /** Everything but the occurrence count: the material whose digest is the dictionary key. */
  function Key(o: Offence): Offence { o.(count := None) }

  predicate SameEntry(a: Offence, o: Offence) {
    a.count.Some? && o.count.Some? && Key(a) == Key(o)
  }

  function Plus(a: Offence, o: Offence): Offence
    requires SameEntry(a, o)
  {
    a.(count := Some(a.count.value + o.count.value))
  }

  /** One observation arrives at the entries collected so far. */
  function Step(u: seq<Offence>, o: Offence): seq<Offence> {
    if u == [] then [o]
    else if SameEntry(u[0], o) then [Plus(u[0], o)] + u[1..]
    else [u[0]] + Step(u[1..], o)
  }

  function Absorb(u: seq<Offence>, s: seq<Offence>): seq<Offence> {
    if s == [] then u else Step(Absorb(u, s[..|s| - 1]), s[|s| - 1])
  }

  /** The specification of the merge: observations arrive one at a time. */
  function Merge(s: seq<Offence>): seq<Offence> { Absorb([], s) }

  // ---- the dictionary loop refines the specification ----

  lemma {:induction false} StepAt(u: seq<Offence>, o: Offence, k: nat)
    requires k < |u| && SameEntry(u[k], o)
    requires forall i :: 0 <= i < k ==> !SameEntry(u[i], o)
    ensures Step(u, o) == u[k := Plus(u[k], o)]
  {
    if k > 0 {
      StepAt(u[1..], o, k - 1);
      assert u[k := Plus(u[k], o)] == [u[0]] + u[1..][k - 1 := Plus(u[k], o)];
    } else {
      assert u[0 := Plus(u[0], o)] == [Plus(u[0], o)] + u[1..];
    }
  }

  lemma {:induction false} StepNew(u: seq<Offence>, o: Offence)
    requires forall i :: 0 <= i < |u| ==> !SameEntry(u[i], o)
    ensures Step(u, o) == u + [o]
  {
    if u != [] {
      StepNew(u[1..], o);
      assert u + [o] == [u[0]] + (u[1..] + [o]);
    }
  }

  /** The insertion-ordered dictionary of the source: `at` maps a key to its position in `unique`;
      uncounted observations get a position but no key of their own. */
  method MergeObservations(observations: seq<Offence>) returns (unique: seq<Offence>)
    ensures unique == Merge(observations)
  {
    unique := [];
    var at: map<Offence, nat> := map[];
    for n := 0 to |observations|
      invariant unique == Merge(observations[..n])
      invariant forall k :: k in at ==>
        at[k] < |unique| && unique[at[k]].count.Some? && Key(unique[at[k]]) == k
      invariant forall i :: 0 <= i < |unique| && unique[i].count.Some? ==>
        Key(unique[i]) in at && at[Key(unique[i])] == i
    {
      var observation := observations[n];
      assert observations[..n + 1][..n] == observations[..n];
      var key := Key(observation);
      if observation.count.None? {
        StepNew(unique, observation);
        unique := unique + [observation];
      } else if key !in at {
        StepNew(unique, observation);
        at := at[key := |unique|];
        unique := unique + [observation];
      } else {
        StepAt(unique, observation, at[key]);
        unique := unique[at[key] := Plus(unique[at[key]], observation)];
      }
    }
    assert observations[..|observations|] == observations;
  }

  // ---- what the merge keeps: occurrences and first-seen order ----

  /** Occurrences recorded for one counted key. */
  function Occurrences(s: seq<Offence>, k: Offence): int {
    if s == [] then 0 else
      Occurrences(s[..|s| - 1], k)
      + (var o := s[|s| - 1]; if o.count.Some? && Key(o) == k then o.count.value else 0)
  }

  /** All occurrences, an unknown count contributing nothing. */
  function Total(s: seq<Offence>): int {
    if s == [] then 0 else
      Total(s[..|s| - 1]) + (if s[|s| - 1].count.Some? then s[|s| - 1].count.value else 0)
  }

  /** The keys in the order in which they were first seen; uncounted observations all stay. */
  function FirstSeen(s: seq<Offence>): seq<(Offence, bool)> {
    if s == [] then [] else
      var before := FirstSeen(s[..|s| - 1]);
      var o := s[|s| - 1];
      if o.count.Some? && (Key(o), true) in before then before
      else before + [(Key(o), o.count.Some?)]
  }

  function Shape(u: seq<Offence>): (r: seq<(Offence, bool)>)
    ensures |r| == |u|
    ensures forall i :: 0 <= i < |u| ==> r[i] == (Key(u[i]), u[i].count.Some?)
  {
    if u == [] then [] else [(Key(u[0]), u[0].count.Some?)] + Shape(u[1..])
  }

  /** No two counted entries share a key. */
  predicate Distinct(u: seq<Offence>) {
    forall i, j :: 0 <= i < j < |u| ==> !SameEntry(u[i], u[j])
  }

  /** A step either adds to the one matching entry or appends. */
  lemma StepCases(u: seq<Offence>, o: Offence) returns (k: int)
    requires Distinct(u)
    ensures -1 <= k < |u|
    ensures k >= 0 ==> SameEntry(u[k], o) && Step(u, o) == u[k := Plus(u[k], o)]
    ensures k == -1 ==> (forall i :: 0 <= i < |u| ==> !SameEntry(u[i], o)) && Step(u, o) == u + [o]
    ensures Distinct(Step(u, o))
  {
    if i :| 0 <= i < |u| && SameEntry(u[i], o) {
      k := i;
      assert forall j :: 0 <= j < k ==> !SameEntry(u[j], o) by {
        forall j | 0 <= j < k ensures !SameEntry(u[j], o) {
          if SameEntry(u[j], o) { assert SameEntry(u[j], u[k]); }
        }
      }
      StepAt(u, o, k);
      forall a, b | 0 <= a < b < |u| ensures !SameEntry(Step(u, o)[a], Step(u, o)[b]) {
        assert !SameEntry(u[a], u[b]);
      }
    } else {
      k := -1;
      StepNew(u, o);
    }
  }

  lemma {:induction false} MergedIsDistinct(s: seq<Offence>)
    ensures Distinct(Merge(s))
  {
    if s != [] {
      MergedIsDistinct(s[..|s| - 1]);
      var k := StepCases(Merge(s[..|s| - 1]), s[|s| - 1]);
    }
  }

  lemma {:induction false} OccurrencesUpdate(u: seq<Offence>, i: nat, o: Offence, k: Offence)
    requires i < |u| && SameEntry(u[i], o)
    ensures Occurrences(u[i := Plus(u[i], o)], k)
         == Occurrences(u, k) + (if Key(o) == k then o.count.value else 0)
    ensures Total(u[i := Plus(u[i], o)]) == Total(u) + o.count.value
  {
    var v := u[i := Plus(u[i], o)];
    var n := |u| - 1;
    if i < n {
      assert v[..n] == u[..n][i := Plus(u[i], o)];
      OccurrencesUpdate(u[..n], i, o, k);
    } else {
      assert v[..n] == u[..n];
    }
  }

  lemma OccurrencesAppend(u: seq<Offence>, o: Offence, k: Offence)
    ensures Occurrences(u + [o], k)
         == Occurrences(u, k) + (if o.count.Some? && Key(o) == k then o.count.value else 0)
    ensures Total(u + [o]) == Total(u) + (if o.count.Some? then o.count.value else 0)
  {
    assert (u + [o])[..|u|] == u;
  }

  /** Conservation: no occurrence of any key is lost or invented. */
  lemma {:induction false} MergeConserves(s: seq<Offence>, k: Offence)
    ensures Occurrences(Merge(s), k) == Occurrences(s, k)
    ensures Total(Merge(s)) == Total(s)
  {
    if s != [] {
      MergeConserves(s[..|s| - 1], k);
      MergedIsDistinct(s[..|s| - 1]);
      StepConserves(Merge(s[..|s| - 1]), s[|s| - 1], k);
    }
  }

  lemma StepConserves(u: seq<Offence>, o: Offence, k: Offence)
    requires Distinct(u)
    ensures Occurrences(Step(u, o), k)
         == Occurrences(u, k) + (if o.count.Some? && Key(o) == k then o.count.value else 0)
    ensures Total(Step(u, o)) == Total(u) + (if o.count.Some? then o.count.value else 0)
  {
    var i := StepCases(u, o);
    if i >= 0 {
      OccurrencesUpdate(u, i, o, k);
    } else {
      OccurrencesAppend(u, o, k);
    }
  }

  lemma ShapeAppend(u: seq<Offence>, o: Offence)
    ensures Shape(u + [o]) == Shape(u) + [(Key(o), o.count.Some?)]
  {
    var v, w := Shape(u + [o]), Shape(u) + [(Key(o), o.count.Some?)];
    assert forall j :: 0 <= j < |v| ==> v[j] == w[j];
  }

  lemma ShapeUpdate(u: seq<Offence>, k: nat, o: Offence)
    requires k < |u| && SameEntry(u[k], o)
    ensures Shape(u[k := Plus(u[k], o)]) == Shape(u)
  {
    var v, w := Shape(u[k := Plus(u[k], o)]), Shape(u);
    assert forall j :: 0 <= j < |v| ==> v[j] == w[j];
  }

  /** Order: the merged keys are the distinct counted keys, in first-seen order. */
  lemma {:induction false} MergeKeepsFirstSeenOrder(s: seq<Offence>)
    ensures Shape(Merge(s)) == FirstSeen(s)
  {
    if s != [] {
      var front, o := s[..|s| - 1], s[|s| - 1];
      MergeKeepsFirstSeenOrder(front);
      MergedIsDistinct(front);
      var u := Merge(front);
      var i := StepCases(u, o);
      if i >= 0 {
        assert Shape(u)[i] == (Key(o), true);
        ShapeUpdate(u, i, o);
      } else {
        assert o.count.Some? ==> forall j :: 0 <= j < |u| ==> Shape(u)[j] != (Key(o), true);
        ShapeAppend(u, o);
      }
    }
  }

  // ---- algebra of nested merges ----

  lemma {:induction false} AbsorbConcat(u: seq<Offence>, a: seq<Offence>, b: seq<Offence>)
    ensures Absorb(u, a + b) == Absorb(Absorb(u, a), b)
  {
    if b == [] {
      assert a + b == a;
    } else {
      var front := b[..|b| - 1];
      assert (a + b)[..|a + b| - 1] == a + front;
      AbsorbConcat(u, a, front);
    }
  }

  /** Once a counted key is present, adding to it commutes with any later arrival. */
  lemma {:induction false} StepsCommute(u: seq<Offence>, o: Offence, q: Offence)
    requires exists i :: 0 <= i < |u| && SameEntry(u[i], o)
    ensures Step(Step(u, o), q) == Step(Step(u, q), o)
  {
    if SameEntry(u[0], o) {
      if SameEntry(u[0], q) {
        assert Step(u, o) == [Plus(u[0], o)] + u[1..];
        assert Step(u, q) == [Plus(u[0], q)] + u[1..];
      } else {
        assert Step(u, o) == [Plus(u[0], o)] + u[1..];
        assert Step(u, q) == [u[0]] + Step(u[1..], q);
        assert Step(Step(u, o), q) == [Plus(u[0], o)] + Step(u[1..], q);
      }
    } else {
      var i :| 0 <= i < |u| && SameEntry(u[i], o);
      assert SameEntry(u[1..][i - 1], o);
      assert Step(u, o) == [u[0]] + Step(u[1..], o);
      if SameEntry(u[0], q) {
        assert Step(u, q) == [Plus(u[0], q)] + u[1..];
        assert !SameEntry(Plus(u[0], q), o);
      } else {
        assert Step(u, q) == [u[0]] + Step(u[1..], q);
        StepsCommute(u[1..], o, q);
      }
    }
  }

  /** Arrivals never remove a key. */
  lemma {:induction false} StepKeeps(u: seq<Offence>, q: Offence, o: Offence)
    requires exists i :: 0 <= i < |u| && SameEntry(u[i], o)
    ensures exists i :: 0 <= i < |Step(u, q)| && SameEntry(Step(u, q)[i], o)
  {
    var i :| 0 <= i < |u| && SameEntry(u[i], o);
    if SameEntry(u[0], q) {
      assert SameEntry(Step(u, q)[i], o);
    } else if i == 0 {
      assert SameEntry(Step(u, q)[0], o);
    } else {
      assert SameEntry(u[1..][i - 1], o);
      StepKeeps(u[1..], q, o);
      var j :| 0 <= j < |Step(u[1..], q)| && SameEntry(Step(u[1..], q)[j], o);
      assert Step(u, q)[j + 1] == Step(u[1..], q)[j];
    }
  }

  lemma {:induction false} SelfKeyed(u: seq<Offence>, o: Offence)
    requires o.count.Some?
    ensures exists i :: 0 <= i < |Step(u, o)| && SameEntry(Step(u, o)[i], o)
  {
    if u == [] {
      assert SameEntry(Step(u, o)[0], o);
    } else if SameEntry(u[0], o) {
      assert SameEntry(Step(u, o)[0], o);
    } else {
      SelfKeyed(u[1..], o);
      var j :| 0 <= j < |Step(u[1..], o)| && SameEntry(Step(u[1..], o)[j], o);
      assert Step(u, o)[j + 1] == Step(u[1..], o)[j];
    }
  }

  /** Adding `o` to an entry that was absorbed earlier equals absorbing `o` afterwards. */
  lemma {:induction false} AddEarlyOrLate(u: seq<Offence>, m: seq<Offence>, k: nat, o: Offence)
    requires k < |m| && SameEntry(m[k], o)
    ensures Absorb(u, m[k := Plus(m[k], o)]) == Step(Absorb(u, m), o)
    ensures exists i :: 0 <= i < |Absorb(u, m)| && SameEntry(Absorb(u, m)[i], o)
  {
    var n := |m| - 1;
    var late := m[k := Plus(m[k], o)];
    if k == n {
      assert late[..n] == m[..n];
      var w := Absorb(u, m[..n]);
      StepTwice(w, m[k], o);
      SelfKeyed(w, m[k]);
    } else {
      assert late[..n] == m[..n][k := Plus(m[k], o)];
      AddEarlyOrLate(u, m[..n], k, o);
      StepsCommute(Absorb(u, m[..n]), o, m[n]);
      StepKeeps(Absorb(u, m[..n]), m[n], o);
    }
  }

  lemma {:induction false} StepTwice(w: seq<Offence>, a: Offence, o: Offence)
    requires SameEntry(a, o)
    ensures Step(w, Plus(a, o)) == Step(Step(w, a), o)
  {
    if w != [] {
      if SameEntry(w[0], a) {
        assert Step(w, a) == [Plus(w[0], a)] + w[1..];
      } else {
        StepTwice(w[1..], a, o);
        assert Step(w, a) == [w[0]] + Step(w[1..], a);
      }
    }
  }

  /** Merging a batch before absorbing it changes nothing. */
  lemma {:induction false} AbsorbMerged(u: seq<Offence>, s: seq<Offence>)
    ensures Absorb(u, Merge(s)) == Absorb(u, s)
  {
    if s != [] {
      var front, o := s[..|s| - 1], s[|s| - 1];
      AbsorbMerged(u, front);
      MergedIsDistinct(front);
      var m := Merge(front);
      var k := StepCases(m, o);
      if k >= 0 {
        AddEarlyOrLate(u, m, k, o);
      } else {
        assert (m + [o])[..|m|] == m;
      }
    }
  }

  /** Nested merges flatten; with b empty this is idempotence. */
  lemma MergeFlattens(a: seq<Offence>, b: seq<Offence>)
    ensures Merge(Merge(a) + Merge(b)) == Merge(a + b)
    ensures Merge(Merge(a) + b) == Merge(a + b)
    ensures Merge(a + Merge(b)) == Merge(a + b)
    ensures Merge(Merge(a)) == Merge(a)
  {
    AbsorbConcat([], Merge(a), Merge(b));
    AbsorbConcat([], Merge(a), b);
    AbsorbConcat([], a, Merge(b));
    AbsorbConcat([], a, b);
    AbsorbMerged([], a);
    AbsorbMerged(Merge(a), b);
  }

  // ---- what a reader of merged evidence may rely on ----

  predicate Shows(s: seq<Offence>, state: OffenceState) { exists o :: o in s && o.state == state }

  lemma {:induction false} MergeKeepsStates(s: seq<Offence>, state: OffenceState)
    ensures Shows(Merge(s), state) <==> Shows(s, state)
  {
    if s != [] {
      var front, o := s[..|s| - 1], s[|s| - 1];
      assert s == front + [o];
      MergeKeepsStates(front, state);
      MergedIsDistinct(front);
      var u := Merge(front);
      var k := StepCases(u, o);
      if k >= 0 {
        assert Key(u[k]).state == Key(o).state;
        StatesUpdate(u, k, Plus(u[k], o), state);
        if o.state == state { assert u[k] in u; }
      }
    }
  }

  lemma StatesUpdate(u: seq<Offence>, k: nat, p: Offence, state: OffenceState)
    requires k < |u| && p.state == u[k].state
    ensures Shows(u[k := p], state) <==> Shows(u, state)
  {
    if q :| q in u && q.state == state {
      var i :| 0 <= i < |u| && u[i] == q;
      assert u[k := p][i] in u[k := p] && u[k := p][i].state == state;
    }
    if q :| q in u[k := p] && q.state == state {
      var i :| 0 <= i < |u| && u[k := p][i] == q;
      assert u[i] in u && u[i].state == state;
    }
  }

  lemma MergeKeepsWitness(d: Option<Diagnostic>, s: seq<Offence>)
    ensures Witnessed(d, Merge(s)) <==> Witnessed(d, s)
  {
    if d.Some? && d.value.stage == GroupMember {
      if o :| o in s && o.state in WitnessStates(d.value.subreason) {
        MergeKeepsStates(s, o.state);
        var q :| q in Merge(s) && q.state == o.state;
      }
      if o :| o in Merge(s) && o.state in WitnessStates(d.value.subreason) {
        MergeKeepsStates(s, o.state);
        var q :| q in s && q.state == o.state;
      }
    }
  }

  lemma {:induction false} MergeKeepsValidity(s: seq<Offence>)
    requires AllValid(s)
    ensures AllValid(Merge(s))
    ensures Merge(s) == [] <==> s == []
  {
    if s != [] {
      var front, o := s[..|s| - 1], s[|s| - 1];
      assert s == front + [o];
      assert o in s && forall p :: p in front ==> p in s;
      MergeKeepsValidity(front);
      MergedIsDistinct(front);
      var u := Merge(front);
      var k := StepCases(u, o);
      if k >= 0 {
        assert u[k] in u;
        assert ValidOffence(Plus(u[k], o));
        forall q | q in Step(u, o) ensures ValidOffence(q) {
          var i :| 0 <= i < |u| && Step(u, o)[i] == q;
          assert u[i] in u;
        }
      }
    }
  }

  lemma {:induction false} MergeEmptyIff(s: seq<Offence>)
    ensures Merge(s) == [] <==> s == []
  {
    if s != [] {
      MergedIsDistinct(s[..|s| - 1]);
      var k := StepCases(Merge(s[..|s| - 1]), s[|s| - 1]);
    }
  }
}
