/**
 One-shot consumption of a retained runtime: write an intent, remove the runtime, write a receipt.
 The machine may stop between any two changes of the disk, any operation may fail, and bytes may be
 stored damaged; directory changes reach the disk in order and are certain only after a sync.
 */
module Consumption {
  import opened Base

  // ---- documents ----

  datatype BindingMaterial = BindingMaterial(commit: string, tree: string, runtimeRoot: string,
                                             inventory: string, cache: string, other: string)
  datatype BindingSha = BindingSha(of: BindingMaterial)
  datatype BindingDoc = BindingDoc(material: BindingMaterial, digest: BindingSha)

  datatype IntentMaterial = IntentMaterial(commit: string, tree: string, binding: BindingSha)
  datatype IntentSha = IntentSha(of: IntentMaterial)
  datatype Intent = Intent(material: IntentMaterial, digest: IntentSha)

  datatype ReceiptMaterial = ReceiptMaterial(commit: string, tree: string, binding: BindingSha, intent: IntentSha)
  datatype ReceiptSha = ReceiptSha(of: ReceiptMaterial)
  datatype Receipt = Receipt(material: ReceiptMaterial, digest: ReceiptSha)

  predicate ValidBinding(b: BindingDoc) {
    b.digest == BindingSha(b.material) && b.material.inventory == b.material.cache
  }

  const BLANK := BindingMaterial("", "", "", "", "", "")

  /** A binding that passed its validator. */
  type Binding = b: BindingDoc | ValidBinding(b) witness BindingDoc(BLANK, BindingSha(BLANK))

  /** An install report; without a retained runtime there is nothing to consume. */
  datatype Report = Report(commit: string, binding: Option<Binding>)

  function IntentFor(commit: string, b: Binding): Intent {
    var m := IntentMaterial(commit, b.material.tree, b.digest);
    Intent(m, IntentSha(m))
  }

  function ReceiptFor(commit: string, b: Binding): Receipt {
    var m := ReceiptMaterial(commit, b.material.tree, b.digest, IntentFor(commit, b).digest);
    Receipt(m, ReceiptSha(m))
  }

  /** Both documents name this commit, the tree and the digest of this binding; the receipt is linked to
      the intent, and both pass their validators. */
  lemma DocumentsMean(commit: string, b: Binding)
    ensures var i, c := IntentFor(commit, b), ReceiptFor(commit, b);
      && i.material.commit == c.material.commit == commit
      && i.material.tree == c.material.tree == b.material.tree
      && i.material.binding == c.material.binding == BindingSha(b.material)
      && c.material.intent == i.digest == IntentSha(i.material) && c.digest == ReceiptSha(c.material)
  {}

  // ---- the run directory ----

  datatype Name = Runtime | IntentFile | CleanupFile | BindingFile

  datatype Content =
    | IntentText(intent: Intent)
    | CleanupText(receipt: Receipt)
    | BindingText(binding: BindingDoc)
    | Damaged

  /** `plain`: a regular file of this user with one link; `ownerOnly`: the expected mode. */
  datatype Entry =
    | File(content: Content, plain: bool, ownerOnly: bool)
    | Tree(entries: set<int>, owned: bool, ownerOnly: bool)
    | Symlink

  type State = map<Name, Entry>

  predicate PrivateFile(e: Entry) { e.File? && e.plain && e.ownerOnly }

  /** The runtime may only be consumed in this shape, and only once. */
  predicate Consumable(st: State, root: string, r: Report) {
    && r.binding.Some? && r.binding.value.material.runtimeRoot == root + "/proof-runtime"
    && Runtime in st && st[Runtime].Tree? && st[Runtime].owned && st[Runtime].ownerOnly
    && IntentFile !in st && CleanupFile !in st
  }

  /** Why a runtime may not be consumed, in the order in which it is looked at. */
  predicate Refused(st: State, root: string, r: Report, problem: Problem) {
    if r.binding.None? then problem == RuntimeMissing
    else if r.binding.value.material.runtimeRoot != root + "/proof-runtime" then problem == TargetInvalid
    else if Runtime !in st then problem == TargetMissing
    else if st[Runtime].Symlink? then problem == TargetInvalid
    else if !(st[Runtime].Tree? && st[Runtime].owned && st[Runtime].ownerOnly) then problem == TargetUnsafe
    else problem == ReceiptExists
  }

  /** The state after a finished consumption: the runtime is gone, and the three private documents
      on disk are the report's binding, its intent and the receipt linked to that intent. */
  ghost predicate Consumed(st: State, r: Report) {
    && r.binding.Some? && Runtime !in st
    && IntentFile in st && CleanupFile in st && BindingFile in st
    && PrivateFile(st[IntentFile]) && PrivateFile(st[CleanupFile]) && PrivateFile(st[BindingFile])
    && st[BindingFile].content == BindingText(r.binding.value)
    && st[IntentFile].content == IntentText(IntentFor(r.commit, r.binding.value))
    && st[CleanupFile].content == CleanupText(ReceiptFor(r.commit, r.binding.value))
  }

  /** One directory cannot be the consumption of two different runtimes. */
  lemma ConsumedOnce(st: State, a: Report, b: Report)
    requires Consumed(st, a) && Consumed(st, b)
    ensures a == b
  {
    assert IntentFor(a.commit, a.binding.value).material == IntentFor(b.commit, b.binding.value).material;
  }

  predicate HoldsIntent(st: State, r: Report) {
    && r.binding.Some? && IntentFile in st && st[IntentFile].File?
    && st[IntentFile].content == IntentText(IntentFor(r.commit, r.binding.value))
  }

  function Locked(e: Entry): Entry
    requires e.File?
  {
    File(e.content, e.plain, true)
  }

  predicate SameRuntime(a: State, b: State) {
    (Runtime in a <==> Runtime in b) && (Runtime in a ==> a[Runtime] == b[Runtime])
  }

  predicate SameBesidesRuntime(a: State, b: State) { a - {Runtime} == b - {Runtime} }

  /** What must be true of every state that a stop of the machine can leave behind. */
  predicate SafeState(st: State, original: State, owner: Option<Report>) {
    && (owner.Some? ==> HoldsIntent(st, owner.value))
    && (!SameRuntime(st, original) ==> owner.Some?)
    && (CleanupFile in st ==>
          && owner.Some? && Runtime !in st
          && (st[CleanupFile].File? && st[CleanupFile].content.CleanupText? ==>
                st[CleanupFile].content.receipt == ReceiptFor(owner.value.commit, owner.value.binding.value)))
  }

  datatype Problem =
    | RuntimeMissing | TargetInvalid | TargetMissing | TargetUnsafe | ReceiptExists
    | IntentWriteFailed | IntentInvalid | RemovalFailed | Residue | ReceiptWriteFailed | ReceiptInvalid

  datatype Result = Done(intent: Intent, receipt: Receipt) | Failed(problem: Problem)

  function Linked(r: Report): Result
    requires r.binding.Some?
  {
    Done(IntentFor(r.commit, r.binding.value), ReceiptFor(r.commit, r.binding.value))
  }

  predicate ParsesAsIntent(c: Content) { c.IntentText? && c.intent.digest == IntentSha(c.intent.material) }
  predicate ParsesAsReceipt(c: Content) { c.CleanupText? && c.receipt.digest == ReceiptSha(c.receipt.material) }
  predicate ParsesAsBinding(c: Content) { c.BindingText? && ValidBinding(c.binding) }

  function PrivateIntent(r: Report): Entry
    requires r.binding.Some?
  {
    File(IntentText(IntentFor(r.commit, r.binding.value)), true, true)
  }

  function PrivateReceipt(r: Report): Entry
    requires r.binding.Some?
  {
    File(CleanupText(ReceiptFor(r.commit, r.binding.value)), true, true)
  }

  /** What a write leaves under its name: the document, or damaged bytes that can be told apart. */
  predicate Stored(e: Entry, content: Content) { e.File? && (e.content == content || e.content == Damaged) }

  ghost predicate Wrote(before: State, after: State, name: Name, content: Content) {
    name in after && Stored(after[name], content) && after == before[name := after[name]]
  }

  class Disk {
    const root: string
    var live: State
    /** The states since the last restart; those from `synced` on may be found after a stop. */
    var history: seq<State>
    var synced: nat
    /** Some operation failed or stored damaged bytes. */
    ghost var fault: bool
    /** The report whose call began to remove the runtime, and how often a removal was begun. */
    ghost var owner: Option<Report>
    ghost var begun: nat
    const original: State

    ghost predicate Valid()
      reads this
    {
      && synced < |history| && history[|history| - 1] == live
      && begun == (if owner.Some? then 1 else 0)
      && forall i :: synced <= i < |history| ==> SafeState(history[i], original, owner)
    }

    constructor (root: string, start: State)
      requires IntentFile !in start && CleanupFile !in start
      ensures Valid() && this.root == root && live == start && original == start && owner.None? && !fault
    {
      this.root, live, original := root, start, start;
      history, synced, fault, owner, begun := [start], 0, false, None, 0;
    }

    ghost predicate SameOwner(o: Option<Report>, failed: bool)
      reads this
    {
      owner == o && (failed ==> fault)
    }

    /** The machine stops and restarts: any state since the last sync may be what is found. */
    method StopAndRestart()
      requires Valid()
      modifies this
      ensures Valid() && SameOwner(old(owner), old(fault)) && SafeState(live, original, owner)
      ensures exists i :: old(synced) <= i < |old(history)| && live == old(history)[i]
    {
      var i: nat := *;
      if !(synced <= i < |history|) { i := |history| - 1; }
      live := history[i];
      history, synced := [live], 0;
    }

    /** One change of the directory. */
    method Change(next: State)
      requires Valid() && SafeState(next, original, owner)
      modifies this`live, this`history
      ensures Valid() && live == next && history == old(history) + [next]
    {
      live, history := next, history + [next];
    }

    method Fails() returns (failed: bool)
      modifies this`fault
      ensures fault == (old(fault) || failed)
    {
      failed := *;
      fault := fault || failed;
    }

    method SyncDirectory() returns (ok: bool)
      requires Valid()
      modifies this`synced, this`fault
      ensures Valid() && fault == (old(fault) || !ok)
      ensures synced == if ok then |history| - 1 else old(synced)
    {
      var failed := Fails();
      ok := !failed;
      if ok { synced := |history| - 1; }
    }

    /** A temporary file is written and synced, renamed over the name, and the directory synced. */
    method WriteDocument(name: Name, content: Content) returns (ok: bool)
      requires Valid()
      requires forall e :: Stored(e, content) ==> SafeState(live[name := e], original, owner)
      modifies this
      ensures Valid() && SameOwner(old(owner), old(fault))
      ensures live == old(live) || Wrote(old(live), live, name, content)
      ensures ok ==> Wrote(old(live), live, name, content) && synced == |history| - 1
      ensures !fault ==> ok && live == old(live)[name := File(content, true, true)]
    {
      ok := Place(name, content);
      if ok { ok := SyncDirectory(); }
    }

    method Place(name: Name, content: Content) returns (ok: bool)
      requires Valid()
      requires forall e :: Stored(e, content) ==> SafeState(live[name := e], original, owner)
      modifies this
      ensures Valid() && SameOwner(old(owner), old(fault))
      ensures if ok then Wrote(old(live), live, name, content) else live == old(live)
      ensures !fault ==> ok && live == old(live)[name := File(content, true, true)]
    {
      var early, damaged, odd := *, *, *;
      fault := fault || early || damaged || odd;
      ok := !early;
      if early { return; }
      var entry := File(if damaged then Damaged else content, !odd, !odd);
      assert Stored(entry, content);
      Change(live[name := entry]);
    }

    /** Setting the mode of a file that was just written. */
    method MakePrivate(name: Name) returns (ok: bool)
      requires Valid() && name in live && live[name].File?
      requires SafeState(live[name := Locked(live[name])], original, owner)
      modifies this
      ensures Valid() && SameOwner(old(owner), old(fault)) && synced == old(synced)
      ensures (history == old(history) && live == old(live) && !ok && fault)
        || (ok && live == old(live)[name := Locked(old(live)[name])] && history == old(history) + [live])
    {
      var failed := Fails();
      ok := !failed;
      if ok { Change(live[name := Locked(live[name])]); }
    }

    /** From here on the runtime may be missing files: the intent must already be certain to survive. */
    ghost method BeginRemoval(r: Report)
      requires Valid() && owner.None? && CleanupFile !in live
      requires forall i :: synced <= i < |history| ==> HoldsIntent(history[i], r) && CleanupFile !in history[i]
      modifies this`owner, this`begun
      ensures Valid() && owner == Some(r) && begun == old(begun) + 1
    {
      owner, begun := Some(r), begun + 1;
    }

    /** Removes the runtime entry by entry, and stops at the first failure. Something may put a
        new directory in its place. */
    method RemoveRuntime() returns (ok: bool)
      requires Valid() && owner.Some? && Runtime in live && live[Runtime].Tree? && CleanupFile !in live
      modifies this
      ensures Valid() && SameOwner(old(owner), old(fault)) && SameBesidesRuntime(live, old(live))
      ensures !fault ==> ok && Runtime !in live
    {
      ok := false;
      var left := live[Runtime].entries;
      while left != {}
        invariant Valid() && SameOwner(old(owner), old(fault)) && SameBesidesRuntime(live, old(live))
        invariant Runtime in live && live[Runtime].Tree?
        invariant left <= live[Runtime].entries
        decreases |left|
      {
        assert (forall x :: x !in left) ==> left == {};
        var x :| x in left;
        var failed := Fails();
        if failed { return; }
        OnlyRuntime(live, live[Runtime := live[Runtime].(entries := live[Runtime].entries - {x})]);
        Change(live[Runtime := live[Runtime].(entries := live[Runtime].entries - {x})]);
        left := left - {x};
      }
      var failed := Fails();
      if failed { return; }
      OnlyRuntime(live, live - {Runtime});
      Change(live - {Runtime});
      ok := true;
      var meddled := Fails();
      if meddled {
        OnlyRuntime(live, live[Runtime := Tree({}, false, false)]);
        Change(live[Runtime := Tree({}, false, false)]);
      }
    }

    /** The state and the content of one file; None stands for an error on the way. */
    method ReadFile(name: Name) returns (e: Option<Entry>)
      modifies this`fault
      ensures old(fault) ==> fault
      ensures e.Some? ==> name in live && e.value == live[name] && e.value.File?
      ensures e.None? ==> fault || name !in live || !live[name].File?
    {
      e := None;
      var failed := Fails();
      if failed || name !in live || !live[name].File? { return; }
      e := Some(live[name]);
    }

    /** Checks the state after consumption without needing the removed runtime. */
    method Verify(r: Report) returns (result: Result)
      modifies this`fault
      ensures old(fault) ==> fault
      ensures result.Done? ==> Consumed(live, r) && result == Linked(r)
      ensures result.Failed? ==> fault || !Consumed(live, r)
    {
      if r.binding.None? { return Failed(RuntimeMissing); }
      var i := ReadFile(IntentFile);
      var c := ReadFile(CleanupFile);
      var b := ReadFile(BindingFile);
      if i.None? || c.None? || b.None? { return Failed(ReceiptInvalid); }
      if !ParsesAsIntent(i.value.content) || !ParsesAsReceipt(c.value.content) || !ParsesAsBinding(b.value.content) {
        return Failed(ReceiptInvalid);
      }
      var intent, receipt, onDisk := i.value.content.intent, c.value.content.receipt, b.value.content.binding;
      var invalidFile := !PrivateFile(i.value) || !PrivateFile(c.value) || !PrivateFile(b.value);
      var invalidBinding :=
        || onDisk != r.binding.value
        || intent.material.commit != r.commit
        || intent.material.tree != r.binding.value.material.tree
        || intent.material.binding != r.binding.value.digest
        || receipt.material.commit != r.commit
        || receipt.material.tree != r.binding.value.material.tree
        || receipt.material.binding != r.binding.value.digest
        || receipt.material.intent != intent.digest;
      if Runtime in live || invalidFile || invalidBinding { return Failed(ReceiptInvalid); }
      result := Done(intent, receipt);
    }

    /** Writes the intent and reads it back: on success it is certain to survive. */
    method PrepareIntent(r: Report) returns (problem: Option<Problem>)
      requires Valid() && r.binding.Some? && owner.None? && IntentFile !in live && CleanupFile !in live
      modifies this
      ensures Valid() && SameOwner(old(owner), old(fault))
      ensures live == old(live) || (IntentFile in live && live == old(live)[IntentFile := live[IntentFile]])
      ensures problem.None? ==> live == old(live)[IntentFile := PrivateIntent(r)]
      ensures problem.None? ==> forall i :: synced <= i < |history| ==>
        HoldsIntent(history[i], r) && CleanupFile !in history[i]
      ensures !fault ==> problem.None?
    {
      var intent := IntentFor(r.commit, r.binding.value);
      var ok := WriteDocument(IntentFile, IntentText(intent));
      if !ok { return Some(IntentWriteFailed); }
      ok := MakePrivate(IntentFile);
      if !ok { return Some(IntentWriteFailed); }
      var e := ReadFile(IntentFile);
      if e.None? || !ParsesAsIntent(e.value.content) { return Some(IntentInvalid); }
      if e.value.content.intent != intent || !PrivateFile(e.value) { return Some(IntentInvalid); }
      problem := None;
    }

    method WriteReceipt(r: Report) returns (ok: bool)
      requires Valid() && owner == Some(r) && Runtime !in live && CleanupFile !in live && HoldsIntent(live, r)
      modifies this
      ensures Valid() && SameOwner(old(owner), old(fault))
      ensures live == old(live) || (CleanupFile in live && live == old(live)[CleanupFile := live[CleanupFile]])
      ensures !fault ==> ok && live == old(live)[CleanupFile := PrivateReceipt(r)]
    {
      ok := WriteDocument(CleanupFile, CleanupText(ReceiptFor(r.commit, r.binding.value)));
      if ok { ok := MakePrivate(CleanupFile); }
    }

    /** Authorises, removes and proves the consumption of the one-shot runtime. */
    method Consume(r: Report) returns (result: Result)
      requires Valid()
      modifies this
      ensures Valid() && (old(fault) ==> fault)
      ensures !Consumable(old(live), root, r) ==> result.Failed? && Unmoved(old(live), old(history), old(owner))
      ensures !Consumable(old(live), root, r) && !fault ==> Refused(old(live), root, r, result.problem)
      ensures result.Done? ==> old(owner).None? && owner == Some(r) && Consumed(live, r) && result == Linked(r)
      ensures owner != old(owner) ==> old(owner).None? && owner == Some(r) && Consumable(old(live), root, r)
      ensures owner == old(owner) ==> SameRuntime(live, old(live))
      ensures !fault && Consumable(old(live), root, r) && Bound(old(live), r) ==> result.Done?
    {
      if r.binding.None? { return Failed(RuntimeMissing); }
      if r.binding.value.material.runtimeRoot != root + "/proof-runtime"
         || (Runtime in live && live[Runtime].Symlink?) {
        return Failed(TargetInvalid);
      }
      var failed := Fails();
      if failed || Runtime !in live { return Failed(TargetMissing); }
      if !live[Runtime].Tree? || !live[Runtime].owned || !live[Runtime].ownerOnly { return Failed(TargetUnsafe); }
      if IntentFile in live || CleanupFile in live { return Failed(ReceiptExists); }
      var problem := PrepareIntent(r);
      if problem.Some? { return Failed(problem.value); }
      BeginRemoval(r);
      result := RemoveAndProve(r);
    }

    method RemoveAndProve(r: Report) returns (result: Result)
      requires Valid() && owner == Some(r) && Runtime in live && live[Runtime].Tree?
      requires IntentFile in live && live[IntentFile] == PrivateIntent(r) && CleanupFile !in live
      modifies this
      ensures Valid() && SameOwner(old(owner), old(fault))
      ensures result.Done? ==> Consumed(live, r) && result == Linked(r)
      ensures !fault && Bound(old(live), r) ==> result.Done?
    {
      ghost var ready := live;
      var ok := RemoveRuntime();
      if !ok { return Failed(RemovalFailed); }
      if Runtime in live { return Failed(Residue); }
      OthersKept(live, ready);
      ok := WriteReceipt(r);
      if !ok { return Failed(ReceiptWriteFailed); }
      result := Verify(r);
    }

    ghost predicate Unmoved(st: State, states: seq<State>, o: Option<Report>)
      reads this
    {
      live == st && history == states && owner == o
    }

    ghost predicate Bound(st: State, r: Report) {
      r.binding.Some? && BindingFile in st && st[BindingFile] == File(BindingText(r.binding.value), true, true)
    }
  }

  lemma OthersKept(st: State, before: State)
    requires SameBesidesRuntime(st, before)
    ensures forall n :: n != Runtime ==> (n in st <==> n in before) && (n in st ==> st[n] == before[n])
  {
    forall n | n != Runtime
      ensures (n in st <==> n in before) && (n in st ==> st[n] == before[n])
    {
      assert n in st - {Runtime} <==> n in st;
      assert n in before - {Runtime} <==> n in before;
      if n in st { assert (st - {Runtime})[n] == (before - {Runtime})[n]; }
    }
  }

  lemma OnlyRuntime(st: State, next: State)
    requires next == st - {Runtime} || (Runtime in next && next == st[Runtime := next[Runtime]])
    ensures SameBesidesRuntime(next, st)
    ensures forall r :: HoldsIntent(st, r) ==> HoldsIntent(next, r)
    ensures CleanupFile in next <==> CleanupFile in st
  {
  }

  // ---- runs ----

  datatype Action = Call(report: Report) | Check(report: Report) | Stop

  /** Whatever verifies as consumed is what the one removal was begun for. */
  lemma VerifiedIsOwner(disk: Disk, r: Report)
    requires disk.Valid() && Consumed(disk.live, r)
    ensures disk.owner == Some(r)
  {
    assert SafeState(disk.history[|disk.history| - 1], disk.original, disk.owner);
    var o := disk.owner.value;
    assert IntentFor(o.commit, o.binding.value).material == IntentFor(r.commit, r.binding.value).material;
  }

  /** Any sequence of calls for any reports, checks and stops of the machine: a removal is begun at
      most once, at most one call succeeds, and every successful call or check is for that removal.
      Any operation may fail and end its call there, so a stop in the middle of a call is a failed
      operation followed by `Stop`. */
  method AnyRun(disk: Disk, actions: seq<Action>) returns (consumed: seq<Report>, verified: seq<Report>)
    requires disk.Valid() && disk.owner.None?
    modifies disk
    ensures disk.Valid() && disk.begun <= 1
    ensures |consumed| <= 1
    ensures forall r :: r in consumed || r in verified ==> disk.owner == Some(r)
  {
    consumed, verified := [], [];
    for n := 0 to |actions|
      invariant disk.Valid()
      invariant |consumed| <= disk.begun
      invariant forall r :: r in consumed || r in verified ==> disk.owner == Some(r)
    {
      match actions[n]
      case Call(r) =>
        var result := disk.Consume(r);
        if result.Done? { consumed := consumed + [r]; }
      case Check(r) =>
        var result := disk.Verify(r);
        if result.Done? {
          VerifiedIsOwner(disk, r);
          verified := verified + [r];
        }
      case Stop =>
        disk.StopAndRestart();
    }
  }
}
