# Process cleanup, one-shot consumption and evaluation records: a verified model

The repository runs untrusted commands and evaluations, proves that nothing they started is left,
and writes receipts about it. This project models that logic in Dafny and proves it.

* **Birth-bound cleanup** (`Processes`, `OperatingSystem`, `ProcessTree`, `Merging`, `Judging`,
  `GroupScans`, `Signalling`, `Cleanup`). The operating system is an adversary: a class `Os` whose reads may answer
  anything, with a ghost trace of what was read and signalled. A cleanup's coverage, diagnostic and
  private observations are one fold over its reads (`Judging.Scan`), so the verdict is characterised
  by the trace alone. Signals are pinned from both sides: none without its reads, and none missing
  when the reads allow it.
* **Admission** (`CapturePasses`, `Admission`). Which processes may become cleanup targets: two tree
  scans bracketed by three live-root checks, in a class whose `closed` flag any thread may raise.
* **Publication** (`Publication`, `Provenance`, `LockSections`, `RunCommand`). Every lock section is
  one atomic step of a transition system over any number of capture passes in any interleaving; the
  class `WatchedCommand` holds the fields as they are updated and each of its methods refines one
  step. It also records the run it took and, for each pass that delivered a scope, what that pass
  read. `RunCommand` carries the frozen copy through the final cleanup to the caller, where every
  signal is traced back to the reads of a published pass.
* **Receipts** (`Receipts`, `EvalManager`, `Exhibits`). Writers against the validators that read them back, and
  the manager that folds many cleanups into one verdict.
* **One-shot consumption** (`Consumption`). Intent, removal, receipt, on a disk where every operation
  may fail, bytes may be stored damaged, and a stop may reveal any state since the last sync.
* **Model output** (`ToolNames`, `ToolProtocol`, `OutputParser`, `Transcripts`, `EvalRecords`). The
  output parser, its descriptors, counters and texts, grading, and the records against their validator.
* **Small supports** (`ArgvScanners`, `PrivacyDigests`).

Digests are injective constructors of what they hash. An exception is a missing result.

Some expectations a reader might have are false of the code. They are stated with their exact
condition: the record of an offending observation cannot always be built (`Judging.MemberRejected`,
`Judging.HistoryRejected`, `CapturePasses.SecondReadRejected`, each with a concrete read for which it
happens, and `CapturePasses.FirstReadRejected`, which no answer about a proper pid meets because an
unreadable answer carries its own pid as its group: `CapturePasses.HonestFirstReadRejected`); the
evidence of an unknown cleanup cannot always be built
(`Receipts.UnknownEvidenceBuildsIff` and `EvalManager.EvalEvidenceBuildsIff`, with concrete traces in
`Exhibits`); a descriptor cannot always be built
(`ToolProtocol.DescriptorFailsIff`, with the concrete case `ToolProtocol.DescriptorCanFail`), and then
the parser raises (`OutputParser.ParseFailsIff`); two different tool events without an id can be taken
for one, though only with a colon in a name (`Transcripts.SameIdentityIff`, with the concrete case
`Transcripts.IdentitiesCanCollide`).

## Model

| member | source | states |
|---|---|---|
| Processes.MakeOffence | src/saxo_bank_mcp/agent_skill_command_runner.py:2052-2111 | a built observation record passes the record's validator (148-199 there), counts one occurrence, and reports the pid, group and birth digest of what was read and the state asked for or read |
| Merging.MergeObservations | src/saxo_bank_mcp/agent_skill_command_runner.py:2121-2146 | the insertion-ordered dictionary loop gives exactly the one-at-a-time merge of its input |
| Merging.MergeConserves | src/saxo_bank_mcp/agent_skill_command_runner.py:2121-2146 | for every key the number of recorded occurrences is the same before and after merging, and so is the total |
| Merging.MergeKeepsFirstSeenOrder | src/saxo_bank_mcp/agent_skill_command_runner.py:2121-2146 | merged entries have distinct keys in first-seen order; uncounted observations all stay |
| Merging.MergeFlattens | src/saxo_bank_mcp/agent_skill_command_runner.py:2121-2146 | merging is idempotent and merging in batches, in any grouping, equals merging at once |
| Merging.MergeKeepsWitness | src/saxo_bank_mcp/agent_skill_command_runner.py:2669-2682 | a diagnostic has a witness among the observations exactly when it has one after merging |
| Merging.MergeKeepsValidity | src/saxo_bank_mcp/agent_skill_command_runner.py:2114-2146 | merging valid records gives valid records |
| ProcessTree.Descendants | src/saxo_bank_mcp/agent_skill_command_runner.py:2879-2926 | the search over parent links ends on any table, cyclic ones included, with exactly the processes reachable from the root |
| ProcessTree.SnapshotTree | src/saxo_bank_mcp/agent_skill_command_runner.py:2879-2926 | the view holds exactly root, descendants, the root group's members and all members of groups so reached, with their groups, bindings and identities |
| ProcessTree.TreeIsGroupClosed | src/saxo_bank_mcp/agent_skill_command_runner.py:2905-2926 | processes and groups of a view are closed under membership both ways; every binding and identity lies inside |
| ProcessTree.TreeIsUnique | src/saxo_bank_mcp/agent_skill_command_runner.py:2879-2926 | no second view of the same table fits the description |
| Judging.TargetMeansRead | src/saxo_bank_mcp/agent_skill_command_runner.py:1653-1687 | one read gives a terminal view that passes its validator for proper numbers; it says running exactly when the captured birth was read running, unknown exactly when unreadable |
| Judging.MemberPasses | src/saxo_bank_mcp/agent_skill_command_runner.py:1954-2049 | a listed group member raises nothing exactly when it is captured and either gone or unchanged in birth and group |
| Judging.MemberRejected | src/saxo_bank_mcp/agent_skill_command_runner.py:1954-2049 | the record of a member cannot be built exactly when a captured process is read in a tracked group other than its own, or a suspicious member's read does not fit a record; said of the read and the captured identities alone |
| Judging.MemberCanBeRejected | src/saxo_bank_mcp/agent_skill_command_runner.py:2019-2037 | a concrete read of a captured process in another tracked group for which this happens |
| Judging.HistoryPasses | src/saxo_bank_mcp/agent_skill_command_runner.py:1783-1851 | a tracked pid that is no target raises nothing exactly when read absent, zombie, or running with a birth unlike every one recorded for it |
| Judging.HistoryRejected | src/saxo_bank_mcp/agent_skill_command_runner.py:1800-1851 | the record of a tracked pid that is no target cannot be built exactly when the process may still be ours and the read, or the group expected for it, does not fit a record |
| Judging.HistoryCanBeRejected | src/saxo_bank_mcp/agent_skill_command_runner.py:1827-1851 | a concrete read for which this happens: a tracked pid without history, reused by a kernel thread in group 0 |
| Judging.RejectedIff | src/saxo_bank_mcp/agent_skill_command_runner.py:1726-1851 | over any sequence of reads an exception is due exactly when some single read cannot be recorded |
| Judging.FlagIsWitnessed | src/saxo_bank_mcp/agent_skill_command_runner.py:2669-2682 | every diagnostic is an allowed pair, and a group-member one comes with a valid observation in a matching state |
| Judging.FindingsAreWitnessed | src/saxo_bank_mcp/agent_skill_command_runner.py:1726-1851 | over any sequence of reads the first diagnostic is allowed and witnessed, and all observations are valid |
| Judging.CleanIffQuiet | src/saxo_bank_mcp/agent_skill_command_runner.py:1717-1732 | nothing is reported exactly when each single read passes |
| GroupScans.GroupMembers | src/saxo_bank_mcp/agent_skill_command_runner.py:2746-2760 | members come from a complete table or, if it is empty, from a probe of the leader; anything else is an incomplete table |
| GroupScans.CompareGroupMembers | src/saxo_bank_mcp/agent_skill_command_runner.py:1954-2049 | all members are read, nothing is signalled, and the report is exactly what the reads found |
| GroupScans.ScanTrackedGroups | src/saxo_bank_mcp/agent_skill_command_runner.py:1900-1951 | every tracked group is scanned, and the report is exactly what all the reads found; no target is added |
| Signalling.SameBirthRunning | src/saxo_bank_mcp/agent_skill_command_runner.py:1863-1869 | true exactly when the read just made shows the captured birth running |
| Signalling.SignalSameBirth | src/saxo_bank_mcp/agent_skill_command_runner.py:1872-1897 | a signal follows at once a read that shows the captured birth running and, for a process that does not lead its group, a read of the captured leader as gone or unchanged; and whenever the reads are like that the signal is sent |
| Signalling.SignalPhase | src/saxo_bank_mcp/agent_skill_command_runner.py:1734-1763 | every captured process is read once, the last captured first; each one read running is read again and then signalled at once as far as its reads allow, never twice; no other signal is sent and the signalled set is exact |
| Signalling.PhasesPursue | src/saxo_bank_mcp/agent_skill_command_runner.py:1734-1773 | two phases between the first scan and the rescan make a trace in which both signals were tried on every captured process and all stages come in their order |
| Cleanup.ObserveTargets | src/saxo_bank_mcp/agent_skill_command_runner.py:1775-1781 | one terminal view per identity, in pid order, each from the last read of its pid |
| Cleanup.CheckHistory | src/saxo_bank_mcp/agent_skill_command_runner.py:1783-1851 | every tracked pid that is no target is read once more, and the report is exactly what was found |
| Cleanup.CleanupBirthBound | src/saxo_bank_mcp/agent_skill_command_runner.py:1690-1860 | only captured pids are signalled, each signal justified; the snapshot reports exactly the fold over all reads, scans every group twice and holds one target per identity; an exception is raised exactly when some read cannot be recorded or observations were passed in unexplained; unless the first scan raises, both signals are tried on every captured process, in reverse order of capture, and sent whenever the reads allow; scans, signals, rescan, terminal views and history come in this order |
| Cleanup.CompleteIff | src/saxo_bank_mcp/agent_skill_command_runner.py:225-238 | complete exactly when the input coverage was complete, captured pids distinct, every read passed, and no target was last read running with its birth |
| Cleanup.CompleteIsSound | src/saxo_bank_mcp/agent_skill_command_runner.py:1690-1860 | complete implies: in both scans of every tracked group all tables were complete and all members, a leader found by the probe of an empty table included, were read as captured and gone or unchanged; every target was last read gone, zombie or with another birth; every other tracked pid absent, zombie or with a birth unlike all recorded ones |
| Cleanup.ProbedLeaderIsCaptured | src/saxo_bank_mcp/agent_skill_command_runner.py:2746-2760 | a leader that the probe of an empty table finds in its group is not hidden from this verdict |
| CapturePasses.FirstReads | src/saxo_bank_mcp/agent_skill_command_runner.py:660-701 | the processes kept are exactly the readable first reads; diagnostic, observations and observed identities are what the reads show |
| CapturePasses.SecondReads | src/saxo_bank_mcp/agent_skill_command_runner.py:789-857 | an identity is confirmed exactly when its second read agrees and the second scan lists it and its group; every process is read again, and diagnostic, observations and observed identities are what the reads show |
| CapturePasses.FirstFindingsMean | src/saxo_bank_mcp/agent_skill_command_runner.py:660-688 | the first pass finds something exactly when a read is unreadable, and says so |
| CapturePasses.SecondFindingsMean | src/saxo_bank_mcp/agent_skill_command_runner.py:789-851 | the second pass finds exactly the first read, in reading order, that is unreadable or shows another birth, another group, or a group that the second scan did not reach |
| CapturePasses.FirstReadRejected | src/saxo_bank_mcp/agent_skill_command_runner.py:673-686 | the record of a first read cannot be built exactly for an unreadable process whose numbers do not fit |
| CapturePasses.HonestFirstReadRejected | src/saxo_bank_mcp/agent_skill_command_runner.py:1551-1602 | an unreadable answer carries its own pid as its group, so a first read about a positive pid can always be recorded |
| CapturePasses.SecondReadRejected | src/saxo_bank_mcp/agent_skill_command_runner.py:789-851 | the record of a second read cannot be built exactly when the process kept birth and group but the group left the second scan, or an unconfirmed read does not fit a record |
| CapturePasses.SecondReadCanBeRejected | src/saxo_bank_mcp/agent_skill_command_runner.py:826-851 | a concrete unchanged process whose group left the second scan |
| Admission.RootBoundAdmission.RootAllowsAdmission | src/saxo_bank_mcp/agent_skill_command_runner.py:886-907 | allowed only after a poll and a read show the root alive with its birth and group; otherwise admission is closed, and closed stays closed; it is closed here only for such a reason or by another thread |
| Admission.RootBoundAdmission.DetectionScope | src/saxo_bank_mcp/agent_skill_command_runner.py:909-959 | a closed-root scan admits nothing but the root; its scope passes the scope's checks, tracks exactly the root's numbers and those of the scan, remembers the root only, and reports a snapshot failure exactly when the table was not read completely |
| Admission.RootBoundAdmission.CaptureScope | src/saxo_bank_mcp/agent_skill_command_runner.py:600-884 | every scope passes its own checks (559-581 there); each identity besides the root lay in two complete scans, was read twice alike, and three live-root checks passed; while admission is open nothing that qualifies is missing; once closed it admits only the root; a capture raises exactly when a first read, or a second read of a process in the second tree, cannot be recorded; the tracked numbers are exactly the root's and those of the scans; a scan that failed is the diagnostic, else diagnostic and observations are what the reads found; pairs and observed identities are exactly those of the trusted scans and the readable reads; every listed process is read, and read again; admission is closed only by other threads, a root that is gone or a scan that failed |
| Admission.DiagnosisMeans | src/saxo_bank_mcp/agent_skill_command_runner.py:640-884 | read by read: a failed first or second snapshot, else an unreadable first read, else the first second read that is unreadable or disagrees, else none; observations are kept exactly with a group-member diagnostic |
| Admission.OpenAdmission | src/saxo_bank_mcp/agent_skill_command_runner.py:1615-1642 | admission is bound to a root exactly when it was polled alive, read running in its group, and the second poll works; the root is the process just read |
| Publication.StepKeepsInv | src/saxo_bank_mcp/agent_skill_command_runner.py:1126-1173 | every lock section keeps the protocol invariant: each started pass is in exactly one of running, published, late and failed, the in-flight count is the number of running ones, diagnostics stay witnessed |
| Publication.RunKeepsInv | src/saxo_bank_mcp/agent_skill_command_runner.py:1084-1173 | the invariant holds after any interleaving; the phase only goes open, draining, frozen; no pass starts after open; tracking only grows and recorded births are write-once; the copy covers everything tracked before it was made and never changes |
| Publication.ReachableInv | src/saxo_bank_mcp/agent_skill_command_runner.py:1084-1173 | the invariant holds in every reachable state, and the in-flight count is the number of passes started and not finished |
| Publication.StepEvolves | src/saxo_bank_mcp/agent_skill_command_runner.py:1160-1173 | one step forgets nothing that was tracked, changes no recorded birth and no copy already made |
| Publication.UnsettledAtFreeze | src/saxo_bank_mcp/agent_skill_command_runner.py:1302-1311 | a pass in flight or failed at the freeze leaves a copy whose drain or coverage is unknown |
| Publication.DiscardedUnreachable | src/saxo_bank_mcp/agent_skill_command_runner.py:1308-1309 | the drain status for discarded publications can never be recorded |
| Publication.FrozenCopyIsFinal | src/saxo_bank_mcp/agent_skill_command_runner.py:1148-1151 | whatever late passes do, copy and published passes stay as they were at the freeze |
| Publication.DeliveredIsCopied | src/saxo_bank_mcp/agent_skill_command_runner.py:1141-1173 | whatever a pass delivers before the freeze is in every copy made later: its numbers, groups, pairs and observed identities, and each of its identities with the birth recorded first |
| Publication.PostExitIsCopied | src/saxo_bank_mcp/agent_skill_command_runner.py:1242-1289 | the numbers found after the child's exit are in the copy with those the main thread had, and a failed scan leaves its coverage unknown |
| Publication.NothingInvented | src/saxo_bank_mcp/agent_skill_command_runner.py:1152-1173 | every number, pair and observed identity of tracking and of the copy was brought by a pass published in time or by the scan after the exit |
| Publication.AdoptAllMeans | src/saxo_bank_mcp/agent_skill_command_runner.py:1160-1173 | a new pid is recorded as delivered; with the recorded birth only its group moves along; with another birth nothing changes |
| Publication.PublishedWasDelivered | src/saxo_bank_mcp/agent_skill_command_runner.py:1141-1173 | in every run each published pass delivered a scope all of which is still tracked or in the copy |
| Publication.TargetsWereDelivered | src/saxo_bank_mcp/agent_skill_command_runner.py:1160-1173 | every tracked identity, and every target of the copy, has the pid, group and birth of an identity in a scope that a published pass delivered |
| Provenance.NotYetDelivered | src/saxo_bank_mcp/agent_skill_command_runner.py:1120-1173 | a pass that is still running has delivered nothing, so no pass delivers twice |
| Provenance.FrozenTargetsAdmitted | src/saxo_bank_mcp/agent_skill_command_runner.py:1160-1316 | given what each delivering pass read: every cleanup target has the pid, group and birth of an identity in the scope of a pass published before the freeze, which is the root or was admitted in full by what that same pass read |
| LockSections.RecordedIsRun | src/saxo_bank_mcp/agent_skill_command_runner.py:1084-1326 | whatever the sections did is a run of the protocol from its start, so every result about runs holds of the fields |
| LockSections.WatchedCommand.CaptureIdentities | src/saxo_bank_mcp/agent_skill_command_runner.py:1120-1173 | one pass from registration to end while other threads take any permitted steps: nothing happens unless it registers; then its trace is the recorded parts of a capture, its scope holds only what those parts admit, and it ends by delivering that scope or by failing |
| LockSections.WatchedCommand.BeginCapture | src/saxo_bank_mcp/agent_skill_command_runner.py:1126-1129 | refines the begin step and keeps the invariant; a pass registers exactly while the state is open |
| LockSections.WatchedCommand.FailCapture | src/saxo_bank_mcp/agent_skill_command_runner.py:1132-1140 | refines the failing step and keeps the invariant |
| LockSections.WatchedCommand.PublishCapture | src/saxo_bank_mcp/agent_skill_command_runner.py:1141-1173 | refines the delivery step, late or in time, and keeps the invariant |
| LockSections.WatchedCommand.Extend | src/saxo_bank_mcp/agent_skill_command_runner.py:1152-1173 | the loops over observed and admitted identities give the published tracking state |
| LockSections.WatchedCommand.DrainPublication | src/saxo_bank_mcp/agent_skill_command_runner.py:1291-1294 | refines the draining step and keeps the invariant |
| LockSections.WatchedCommand.FreezePublication | src/saxo_bank_mcp/agent_skill_command_runner.py:1302-1326 | refines the freezing step, keeps the invariant and hands out the copy it made |
| LockSections.WatchedCommand.Perform | src/saxo_bank_mcp/agent_skill_command_runner.py:1126-1326 | every enabled step of the protocol is performed by one of the sections, and the invariant holds afterwards |
| Receipts.GroupsAndProcesses | src/saxo_bank_mcp/agent_skill_command_runner.py:239-255 | zero live groups exactly when zero live processes, and never more groups than processes |
| Receipts.AliveMeans | src/saxo_bank_mcp/agent_skill_command_runner.py:239-255 | the process count is the number of targets last seen alive, each counted once |
| Receipts.IdentityReceiptIsValid | src/saxo_bank_mcp/agent_skill_command_runner.py:2149-2244 | an authenticated receipt passes its validator (282-313 there) and gives the snapshot's verdict, process count and group count; it names this command, root pid, root group, targets and drain |
| Receipts.ObservedTargetsAreSound | src/saxo_bank_mcp/agent_skill_command_runner.py:1775-1778 | the targets of a cleanup are valid and have distinct pids, one for each identity |
| Receipts.UnknownReceiptIsValid | src/saxo_bank_mcp/agent_skill_command_runner.py:2246-2299 | a diagnostic receipt passes its validator (336-445 there): reason recomputes, pair allowed, group-member diagnostic witnessed; it names this command, root pid, root group, drain, coverage, diagnostic and observations |
| Receipts.WithEarlierIsSound | src/saxo_bank_mcp/agent_skill_command_runner.py:1382-1391 | adding the frozen observations to the cleanup's own keeps the snapshot acceptable and its diagnostic witnessed |
| Receipts.UnknownEvidenceBuildsIff | src/saxo_bank_mcp/agent_skill_command_runner.py:2574-2631 | unknown evidence can be built exactly when the watcher was unsettled, or the first diagnostic is the target one exactly when a target is unknown |
| Exhibits.UnknownEvidenceFailsOnTrace | src/saxo_bank_mcp/agent_skill_command_runner.py:2587-2596 | a concrete sequence of reads from which the cleanup concludes a snapshot that has a valid receipt and whose evidence cannot be built |
| Receipts.CommandEvidenceIsHonest | src/saxo_bank_mcp/agent_skill_command_runner.py:1175-1193 | which kind of evidence is given, with which reason, follows exactly from the snapshot, the path and the write; its construction fails only when the state is unknown and a receipt was written |
| RunCommand.FinalScopes | src/saxo_bank_mcp/agent_skill_command_runner.py:1327-1357 | the numbers are exactly those of the copy, of the last scan and of the root; coverage stays complete exactly if it was and the table was read completely; the first diagnostic stays, else a failed scan is it |
| RunCommand.CleanFrozen | src/saxo_bank_mcp/agent_skill_command_runner.py:1360-1401 | the terminal snapshot is sound, and is what the cleanup found over the final scopes unless the cleanup was interrupted or a read could not be recorded, and then unknown; unknown for an unsettled copy; if complete nothing tracked is left |
| RunCommand.FinishCommand | src/saxo_bank_mcp/agent_skill_command_runner.py:1327-1548 | the command returns normally exactly when nothing stopped it, its child exited with zero, its state is complete and the receipt asked for was written; exit code, evidence and the last scan are exact; a normal return implies exit 0, every started pass published before the freeze with all it delivered in the frozen copy and none failed, a last table read completely, a complete cleanup of that copy, and no read after it of any tracked process; whatever the outcome, each signal is justified by the reads just before it, and the process signalled was admitted by what a pass published before the freeze had read |
| RunCommand.CompleteMeansPublished | src/saxo_bank_mcp/agent_skill_command_runner.py:1302-1311 | a complete status of a command that did not abort leaves no started pass unpublished |
| RunCommand.CommandReceiptIsValid | src/saxo_bank_mcp/agent_skill_command_runner.py:1175-1193 | the receipt written at the end always passes its own validator, with the snapshot's verdict |
| EvalManager.EvalReceiptIsValid | src/saxo_bank_mcp/agent_skill_command_runner.py:2354-2412 | the aggregate receipt passes its validator (491-524 there) and reports all occurrences although empty snapshots were dropped |
| EvalManager.EvidenceConserves | src/saxo_bank_mcp/agent_skill_command_runner.py:2370-2376 | dropping unknown snapshots without observations loses no observation |
| EvalManager.EvalEvidenceBuildsIff | src/saxo_bank_mcp/agent_skill_command_runner.py:2418-2425 | evidence of a written aggregate can be built exactly when its first diagnostic is not the target one |
| Exhibits.EvalEvidenceFailsOnTrace | src/saxo_bank_mcp/agent_skill_command_runner.py:1779-1851 | a concrete sequence of reads after which the aggregate receipt is valid and its evidence cannot be built |
| EvalManager.PresentMeansAggregate | src/saxo_bank_mcp/agent_skill_eval_process.py:194-210 | when observations are present the writer always has a valid aggregate to write |
| EvalManager.AnnouncedFits | src/saxo_bank_mcp/agent_skill_eval_process.py:193-222 | evidence is sealed exactly when a valid receipt was put on disk, and missing exactly in the failing case |
| EvalManager.VerdictIsWorst | src/saxo_bank_mcp/agent_skill_eval_process.py:182-189 | the final verdict is one some run earned, and no run earned a worse one |
| EvalManager.RemainingMatchesVerdict | src/saxo_bank_mcp/agent_skill_eval_process.py:174-189 | the remaining count is missing exactly for an unknown verdict and zero exactly for a pass |
| EvalManager.OneMoreRun | src/saxo_bank_mcp/agent_skill_eval_process.py:174-189 | one more run can only worsen the verdict; counts add up or stay unknown |
| EvalManager.EvalProcessManager.CleanScope | src/saxo_bank_mcp/agent_skill_eval_process.py:110-135 | signals are justified, the snapshot is sound, and a complete one leaves nothing of the scope |
| EvalManager.EvalProcessManager.Run | src/saxo_bank_mcp/agent_skill_eval_process.py:58-168 | a run records one snapshot, sound and about its own scope, exactly when its wait did not break and every read of its cleanup can be recorded, and the counters follow it; it then returns a result unless the deadline passed and reading the rest of the output raised, which leaves the snapshot recorded and the state pending; only processes that its own capture admitted are signalled, and they are, whenever their reads allow; the deadline mark is set exactly by a passed deadline |
| EvalManager.EvalProcessManager.Finalize | src/saxo_bank_mcp/agent_skill_eval_process.py:170-191 | verdict and count are the fold over all recorded snapshots; evidence is set at most once and never replaced |
| EvalManager.EvalProcessManager.PublishEvidence | src/saxo_bank_mcp/agent_skill_eval_process.py:193-222 | a receipt is put on disk only for an unknown verdict without evidence, and is valid |
| Consumption.ConsumedOnce | src/saxo_bank_mcp/agent_skill_codex_install.py:871-882 | one directory state cannot prove the consumption of two different bindings or commits |
| Consumption.DocumentsMean | src/saxo_bank_mcp/agent_skill_codex_install.py:756-830 | intent and receipt name the commit, the tree and the digest of the binding, and the receipt is linked to the intent |
| Consumption.Disk.WriteDocument | src/saxo_bank_mcp/_evidence.py:22-43 | a document is replaced whole or not at all; success means the new entry survives a stop |
| Consumption.Disk.StopAndRestart | src/saxo_bank_mcp/_evidence.py:22-43 | any state since the last sync may be found after a stop, and each is safe |
| Consumption.Disk.PrepareIntent | src/saxo_bank_mcp/agent_skill_codex_install.py:756-797 | success means a private intent for the right binding was read back and is in every state a stop can leave |
| Consumption.Disk.RemoveRuntime | src/saxo_bank_mcp/agent_skill_codex_install.py:798-804 | removal touches the runtime only, in safe states only |
| Consumption.Disk.Consume | src/saxo_bank_mcp/agent_skill_codex_install.py:731-833 | refused without any change unless the runtime is in place and no intent or receipt exists; success proves the consumed state; without failures it succeeds; in every state a stop can leave, a touched runtime has its intent and a receipt means no runtime; without failures a refusal names the first condition that is not met |
| Consumption.Disk.Verify | src/saxo_bank_mcp/agent_skill_codex_install.py:836-889 | succeeds exactly in the consumed state, unless a read fails |
| Consumption.VerifiedIsOwner | src/saxo_bank_mcp/agent_skill_codex_install.py:836-889 | what verifies as consumed is what the one removal was begun for |
| Consumption.AnyRun | src/saxo_bank_mcp/agent_skill_codex_install.py:731-889 | over any sequence of calls, checks and stops a removal is begun at most once, at most one call succeeds, and all successes are about that removal |
| ToolNames.NormalizeIsKnown | src/saxo_bank_mcp/agent_skill_eval_tool_protocol.py:268-284 | only known names come out, and a plain known name is its own logical name |
| ToolNames.NormalizeQualified | src/saxo_bank_mcp/agent_skill_eval_tool_protocol.py:268-295 | each harness spelling of a known tool normalises back to it |
| ToolNames.BareOfQualified | src/saxo_bank_mcp/agent_skill_eval_tool_protocol.py:281 | splitting at the last double underscore gives back the qualified name's last part |
| ToolProtocol.MakeDescriptor | src/saxo_bank_mcp/agent_skill_eval_tool_protocol.py:414-444 | a built descriptor passes its validator (109-125 there) |
| ToolProtocol.DescriptorFailsIff | src/saxo_bank_mcp/agent_skill_eval_tool_protocol.py:414-454 | a descriptor cannot be built exactly for a protocol event whose tool field names a helper of the other protocol |
| ToolProtocol.DescriptorCanFail | src/saxo_bank_mcp/agent_skill_eval_tool_protocol.py:420-431 | a concrete event whose descriptor cannot be built, whatever names are known besides the two it uses |
| ToolProtocol.ListsAreSeparate | src/saxo_bank_mcp/agent_skill_eval_tool_protocol.py:53-72 | the two protocol lists share no name and discovery names are their own bare parts |
| OutputParser.EventCounts.ClassifyItem | src/saxo_bank_mcp/agent_skill_eval_tool_protocol.py:332-366 | the counters, calls and descriptors updated in place follow the sorted outcome of one item |
| OutputParser.ParseOutput | src/saxo_bank_mcp/agent_skill_eval_tool_protocol.py:190-231 | the loop gives the fold over the decoded events, an empty malformed trace, or an exception |
| Transcripts.ParsedMeans | src/saxo_bank_mcp/agent_skill_eval_tool_protocol.py:190-231 | the trace of any lines: the decoded events in order; texts, answers, calls and descriptors picked out of them one by one, in order, none left out; the error of the first foreign event; the answers joined |
| Transcripts.TraceMeans | src/saxo_bank_mcp/agent_skill_eval_tool_protocol.py:200-224 | assistant texts are those of all agent messages and answers those of the completed ones; calls and descriptors come from MCP events whose identity is new |
| Transcripts.JoinMeans | src/saxo_bank_mcp/agent_skill_eval_tool_protocol.py:228 | the answers stand in the text at their offsets, with exactly one newline between neighbours and nothing else |
| Transcripts.ClassifyMeans | src/saxo_bank_mcp/agent_skill_eval_tool_protocol.py:405-431 | a known tool is a Saxo call; otherwise an event is protocol noise, unknown or foreign by its names alone |
| Transcripts.SortMeans | src/saxo_bank_mcp/agent_skill_eval_tool_protocol.py:344-366 | a foreign event is described with its category, its names only as digests, and carries the error of its classification |
| Transcripts.SameIdentityIff | src/saxo_bank_mcp/agent_skill_eval_tool_protocol.py:213 | with ids the id decides; without, and without colons in the names, two tool events are the same exactly when kind, names and command are |
| Transcripts.IdentitiesCanCollide | src/saxo_bank_mcp/agent_skill_eval_tool_protocol.py:213 | two different events with a colon in a name that are taken for one |
| OutputParser.CountersMean | src/saxo_bank_mcp/agent_skill_eval_tool_protocol.py:200-224 | each counter is the number of tool events of its kinds whose identity occurs for the first time |
| OutputParser.ParseConserves | src/saxo_bank_mcp/agent_skill_eval_tool_protocol.py:332-366 | kinds add up to tool events, MCP events to calls plus descriptors, one known tool per call, an error exactly with a foreign event |
| OutputParser.TraceConserves | src/saxo_bank_mcp/agent_skill_eval_tool_protocol.py:190-231 | every returned trace conserves its counters or is the empty malformed one |
| OutputParser.ResendChangesNothing | src/saxo_bank_mcp/agent_skill_eval_tool_protocol.py:212-217 | a tool event whose identity was seen changes nothing, wherever it is sent again |
| OutputParser.ParseFailsIff | src/saxo_bank_mcp/agent_skill_eval_tool_protocol.py:190-231 | the parser raises exactly when some first event of an identity has a descriptor that cannot be built |
| EvalRecords.ReasonsAreSafe | src/saxo_bank_mcp/agent_skill_eval_failure_records.py:55-67 | both reductions of an error give a listed reason; they agree on listed classes and where they part for derived ones |
| EvalRecords.UnobservableIsValid | src/saxo_bank_mcp/agent_skill_eval_failure_records.py:70-107 | an unobservable failure always passes the record validator |
| EvalRecords.GradedIsValidIff | src/saxo_bank_mcp/agent_skill_eval_execution.py:269-332 | a graded record passes the validator (agent_skill_eval_models.py 211-354) exactly within the field limits |
| EvalRecords.FailedIsValidIff | src/saxo_bank_mcp/agent_skill_eval_execution.py:389-495 | a failure with a trace passes the validator exactly within the field limits |
| EvalRecords.RecordIsValidIff | src/saxo_bank_mcp/agent_skill_eval_execution.py:212-251 | a record is unknown exactly when the run timed out, cleanup was unknown or left residue, or output could not be parsed; it can be built exactly then or within the limits |
| EvalRecords.RunPassesIff | src/saxo_bank_mcp/agent_skill_eval_execution.py:212-251 | a run passes exactly when its output was observed without a parse error, it exited with zero or as a Claude run said or called something, the tools were used as asked and the assertions hold |
| EvalRecords.RunErrorMeans | src/saxo_bank_mcp/agent_skill_eval_execution.py:212-386 | the error of every record in the order of the reasons: deadline, cleanup, output; then exit, parse error, side tools, forbidden, ungranted or missing tools, assertions |
| EvalRecords.GradesMean | src/saxo_bank_mcp/agent_skill_eval_execution.py:269-332 | grant and assertion grades of an observed run, which are passed only for a graded one; calls and assertion outcomes are those of the trace |
| EvalRecords.CodexRecordIsValid | src/saxo_bank_mcp/agent_skill_eval_execution.py:227-266 | with the parser's own trace, every Codex record within the limits passes the validator |
| EvalRecords.CodexReportsAddUp | src/saxo_bank_mcp/agent_skill_eval_execution.py:269-332 | in an observable Codex record the listed calls, MCP events, descriptors and no-call flags agree with each other |
| EvalRecords.RunResultUnseen | src/saxo_bank_mcp/agent_skill_eval_execution.py:212-224 | for the result of a managed run, cleanup makes the record unknown exactly when it did not pass |
| EvalRecords.ProcessErrorIsValid | src/saxo_bank_mcp/agent_skill_eval_execution.py:160-170 | the record of an error around the run is valid, and unknown exactly after a launch without a known count |
| EvalRecords.AssertionsMean | src/saxo_bank_mcp/agent_skill_eval_execution.py:535-593 | assertions pass exactly when all required values are said or done, one alternative is, and nothing forbidden is said |
| EvalRecords.PassMeans | src/saxo_bank_mcp/agent_skill_eval_execution.py:335-386 | a case passes exactly when only granted, unforbidden Saxo tools were used, all required ones were, and the assertions hold |
| EvalRecords.PassUsesOnlySaxo | src/saxo_bank_mcp/agent_skill_eval_execution.py:349-369 | in a passed Codex case every tool event was a Saxo call or protocol noise |
| ArgvScanners.RequireAbsolutePaths | scripts/run_analytics_proof_matrix.py:891-916 | accepted exactly when the output path is absolute and every path option is read with an absolute value |
| ArgvScanners.ReadThenSpell | scripts/run_analytics_proof_matrix.py:891-916 | the accepted reading of the arguments spells them back |
| ArgvScanners.SpellThenRead | scripts/run_analytics_proof_matrix.py:891-916 | readable tokens are read back as themselves |
| ArgvScanners.ReplaceOutput | scripts/run_analytics_proof_matrix.py:784-806 | the index loop gives the replaced arguments, and an error unless there is exactly one output value |
| ArgvScanners.ReplacementKeepsAcceptance | scripts/run_analytics_proof_matrix.py:784-806 | for accepted arguments only output values change, the length stays, and the result is accepted again |
| ArgvScanners.CommandSchema | scripts/run_analytics_proof_matrix.py:919-938 | the loop with its pending flag gives the schema of the command |
| ArgvScanners.SchemaHidesPaths | scripts/run_analytics_proof_matrix.py:919-938 | commands with accepted arguments that differ in path values only have the same schema |
| ArgvScanners.ReplacementIsInvisible | scripts/run_analytics_proof_matrix.py:577-590 | replacing the output path never shows in the command schema |
| ArgvScanners.RunnerReplacementIsInvisible | scripts/run_analytics_proof_matrix.py:73-83 | the same for the runner's own list of path options |
| PrivacyDigests.CanonicalForgetsDigests | src/saxo_bank_mcp/agent_skill_install_privacy.py:362-385 | two reports have the same canonical form exactly when they differ in the two digests at most |
| PrivacyDigests.ReportFile.CanonicalPayload | src/saxo_bank_mcp/agent_skill_install_privacy.py:362-385 | the key loop gives the canonical payload of the file |
| PrivacyDigests.FinalizingKeepsCanonical | src/saxo_bank_mcp/agent_skill_install_privacy.py:526-552 | writing any two digests over provisional ones keeps the canonical form |
| PrivacyDigests.ReportFile.FinalizeDigests | src/saxo_bank_mcp/agent_skill_install_privacy.py:526-552 | succeeds exactly with both digests provisional, changes only them, and never the scanned text |
| PrivacyDigests.FinalOnce | src/saxo_bank_mcp/agent_skill_install_privacy.py:543-546 | a finalised report is refused a second time unless both values written were zero |

## Left out

- Operating system calls, the text of process tables, sleeps and clocks: replaced by reads that may answer anything. A signal to a process that is missing or may not be signalled is lost and still counts as sent, as in the code; a signal that fails for any other reason is an interruption of the whole cleanup.
- Thread scheduling inside a capture: a lock section is one atomic step, and the reads of a pass happen between its begin and its end.
- Receipts and observations of older schema versions without the correlation fields, and the readers that verify receipt files on disk.
- The legacy numeric helpers (`terminate_process_group`, `terminate_pid_tree`, `cleanup_recorded_groups`), which the cleanup does not use.
- Sorted duplicate-free tuples of numbers and pairs are sets; the order of observed identities is arbitrary, so the results hold for every order.
- A diagnostic is one value, so its stage and subreason cannot be set apart from each other.
- Output spooling, text decoding, JSON text and the mathematics of SHA-256; a file write of a receipt is one operation that may fail, except in `Consumption`.
- EvalManager.EvalProcessManager.Finalize: does not account for a run that raised after its start and before its snapshot, because the code does not: the fold covers recorded snapshots only.
- RunCommand.FinishCommand: starts from a frozen `WatchedCommand`; the order of the main thread's steps before it is a guard of each step in `Publication`, not one method body.
- LockSections.WatchedCommand.CaptureIdentities: the steps of other threads are taken before the reads of the pass, which they cannot influence except by closing admission; that may happen at any point of the capture.
- Consumption.Disk.StopAndRestart: directory changes reach the disk in order; a file system that reorders two changes of one directory before a sync is not modelled, nor are other programs writing into the run directory apart from a directory appearing where the runtime was.
- ToolNames.NormalizeIsKnown: spaces and letter case are those of ASCII, the four separator characters included; other Unicode spaces and case mappings are not part of the text model.
- The Claude output parser; records of the Claude harness are covered for every trace with no more descriptors than MCP events.
- The router, probe and planned records of an evaluation, which the two record builders do not produce.
- Installers, plugin validation, catalogs, matrix plumbing and the trading modules: single-branch checks and I/O.
