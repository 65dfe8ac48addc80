# Verified models of the repository's tooling protocols

A Dafny 4.11 model of the tools in this repository whose correctness rests on protocols and arithmetic rather than on one
line of code, with proofs over every input and every run. `dafny verify dfyconfig.toml` checks the whole project.

- **Work tracking** (`IssueBody`, `Labels`, `Inventory`, `Planner`, `PlanFacts`, `PlanRun`, `IdealGitHub`, `Replan`,
  `Reconciler`, `Agreement`, `ReconciledPlan`, `NativeForest`, `Publication`, `PublishRun`, `HonestRun`, `Resume`,
  `SharedMarkers`, `ExternalParent`): a reviewed inventory is validated, planned into labels, issues and native parent
  bindings, published through a client and a journal that may fail at any step, read back, and planned again after a run
  that stopped anywhere. GitHub is a map of issues and labels; everything a journal or a client may do in a run is one
  arbitrary `World`.
- **Custody relay** (`Capture`, `RelayRun`, `DeliveryLaw`, `Control`): the locked recorder, the two forwarding threads as
  interleaved atomic steps, the offline verifier, and the control runtime with its descriptor. SHA-256 is a function parameter
  of which nothing is assumed; one lemma requires it to be injective and says so.
- **Stage ledger** (`Chains`, `StageLedger`, `RetryLedger`): supersession chains, terminal ordinals, and the one retry.
- **Budgets** (`Rounding`, `Packing`, `Qualification`): greedy packing under a token and a byte budget with a rounded-up
  ratio p/q, and the spend-capped two-call qualification with real-valued dollars.
- **Decoding and archive moves** (`Encodings`, `StrictDecoding`, `DecodingFacts`, `ArchiveMoves`).

Loops and objects of the source are methods and classes here, each proved equal to a specification function or predicate;
the theorems are about those. A pure function of the source is a function; its row below is the lemma about it.

The model's own assumptions: an issue body is a sequence of tokens (an opening comment, a closing comment or a character);
labels are sets of names; a policy's label names are lower case and its defaulted labels belong to the vocabulary
(`PolicySound`); new issues get unused positive numbers (`AllocationFresh`).

## What turned out to be false, and exactly when it holds

- Replanning after an applied plan is *not* always empty: `source_marker` maps `plan:7` and `PLAN-7` to one marker. It is
  empty exactly when no two drafted records share a marker (`Replan.ReplanIsEmptyIffMarkersDistinct`). An inventory that
  passes every modelled check and breaks it is `SharedMarkers.PlanSevenTwice`.
- A silent reconciliation does not by itself mean that nothing is left to plan: the reconciler does not look at label
  definitions, at parents without a draft, or at a trial label in another letter case. The exact condition is
  `ReconciledPlan.NothingToPlanIffReconciled`; valid inventories that reconcile silently, and whose plans are free of conflicts
  exactly when their scope leaves out the child hanging below an external issue, are `ExternalParent.SilentButUnplannable`.
- The packing bound is -1 for an empty source limit, below the zero calls of the empty plan; it holds for every limit of at
  least one byte (`Packing.CallsAreBounded`, `Packing.EmptySourceBreaksTheBound`).
- A prompt forward that raises is not remembered, so attempts are unbounded; successes are at most one
  (`Control.RaisingForwardsRepeat`, `Control.OneForward`).
- Sealing a descriptor makes later loads refuse exactly when the seal could be written or they refused anyway, because a
  failed write is swallowed (`Control.LoadsRefusedIffSealed`).
- A spent retry can be reopened by superseding its record with one of status `superseded`; while it is not superseded, never
  (`RetryLedger.SupersedingReopens`, `RetryLedger.NoSecondRetry`, `RetryLedger.GrantedIffThirdUnspent`). Seven records that
  do so are `RetryLedger.RetryIsReopened`.
- The reported UTF-16 offset depends on how the file is cut exactly when a NUL precedes a decoding error
  (`DecodingFacts.Utf16OutcomeIsTheWhole`, `DecodingFacts.OffsetDependsOnTheCut`, `DecodingFacts.NulBeforeError`).
- A twin of a path leads back to it exactly when the crossing was not out of a trailing run of `archive` components
  (`ArchiveMoves.TwinsAreMutual`, `ArchiveMoves.TrailingArchiveIsOneWay`).
- A capture whose last end marker reached the index although its write was not confirmed still verifies: acceptance is
  exactly "both end markers are in the index" (`RelayRun.AcceptedIffBothEnded`, `RelayRun.FailedAndAccepted`).
- What the child received is *not* always a prefix of what was recorded: its input is unbuffered, and the count a write
  returns is not looked at (`RelayRun.ShortWriteSkips`). A schedule keeps the law, whatever bytes it carries, exactly when
  nothing is taken after its first short write (`DeliveryLaw.LawIffNothingTakenAfterDrop`); one run whose bytes all differ
  keeps it exactly then too (`DeliveryLaw.LawForDifferentBytes`). An accepted capture is all that was delivered exactly when
  no write was short (`RelayRun.AcceptedIffBothEnded`, `RelayRun.DroppedIffShortWrite`).

## Model

| member | source | states |
|---|---|---|
| `IssueBody.RegionIsFramed` | tools/github_work_tracking.py:1114-1123 | a found region splits the body into text before, the opening comment, the inner text, the closing comment and text after, each comment exactly once |
| `IssueBody.FramedRegion` | tools/github_work_tracking.py:1114-1123 | conversely a body with exactly one well-placed pair of comments has its region found at those very positions |
| `IssueBody.RewriteKeepsTheRest` | tools/github_work_tracking.py:1733-1762 | rewriting a region leaves the text before and after it as it was, and the new body again has exactly one well-formed region, now with the new inner text |
| `IssueBody.RewriteFramed` | tools/github_work_tracking.py:1733-1762 | the rewritten body is the old text around the new region, and is framed again, so rewriting once more is the same rewrite |
| `IssueBody.RewriteUnchanged` | tools/github_work_tracking.py:1733-1762 | rewriting a region to the text it already holds changes nothing |
| `Labels.OneDimension` | tools/github_work_tracking.py:1080-1093 | a label belongs to at most one managed dimension, in any letter case, and is never the trial label |
| `Labels.MergeKeepsUnmanaged` | tools/github_work_tracking.py:1592-1617 | merging adds and removes no unmanaged label |
| `Labels.MergeTakesSource` | tools/github_work_tracking.py:1592-1617 | after a merge each source dimension holds exactly the draft's label |
| `Labels.MergeSettlesDefaulted` | tools/github_work_tracking.py:1592-1617 | without clashes each defaulted dimension ends with exactly one label: the issue's own when it had one, else the draft's |
| `Labels.MergeIsIdempotent` | tools/github_work_tracking.py:1592-1617 | merging the merged labels again changes nothing and clashes nowhere |
| `Labels.SettleDimension` | tools/github_work_tracking.py:1592-1617 | the per-dimension step returns the label that settles the dimension, or none exactly when no label does |
| `Labels.MergeLabels` | tools/github_work_tracking.py:1592-1617 | the loop returns exactly the merged labels and the clashing dimensions of the specification |
| `Inventory.LiesOnCycle` | tools/github_work_tracking.py:914-926 | the walk over parents terminates and finds a cycle exactly when the start itself lies on one |
| `Inventory.ParentCycles` | tools/github_work_tracking.py:914-926 | exactly the records on a parent cycle are reported, so none are exactly when the parents are acyclic |
| `Inventory.ParentsFormAForest` | tools/github_work_tracking.py:914-926 | from every record of a valid inventory the parents reach a root without meeting a record twice |
| `NativeForest.BindingIsParentLink` | tools/github_work_tracking.py:1764-1799 | every binding any plan makes, full, selected or scoped, is a parent link of the inventory between two drafted records |
| `NativeForest.BoundOnce` | tools/github_work_tracking.py:1764-1799 | no plan binds a child twice |
| `NativeForest.PlannedBindingsFormAForest` | tools/github_work_tracking.py:914-926 | the bindings of any plan of a valid inventory form a forest |
| `NativeForest.NativeParentsStayAForest` | tools/github_work_tracking.py:1764-1805 | applying a full conflict-free plan of a valid inventory to a repository whose native parents form a forest leaves a forest, over all issues, drafted or not |
| `Inventory.TargetIssueProblems` | tools/github_work_tracking.py:579-598 | silent exactly when every target is positive, belongs to a migrating record, and is targeted once |
| `Inventory.CountClaims` | tools/github_work_tracking.py:473-565 | the counter holds, for every claimed key and no other, how often all records together claim it |
| `Inventory.ClaimProblems` | tools/github_work_tracking.py:473-565 | silent exactly when no unit is claimed twice and every claimed key names a unit |
| `Inventory.UnclaimedProblems` | tools/github_work_tracking.py:473-565 | silent exactly when every unclaimed unit may stay so |
| `Inventory.ValidateInventory` | tools/github_work_tracking.py:473-565 | returns no problem exactly on a valid inventory |
| `Inventory.MappingProblems` | tools/github_work_tracking.py:2228-2243 | returns no problem exactly when every record has its issue, duplicates one that migrates, or is retired with a reason |
| `Inventory.NoOpenWorkLost` | tools/github_work_tracking.py:168-186 | when both checks are silent, one record and no other claims each unresolved or unknown-status unit, and it has its own issue, duplicates one that has, or carries a terminal disposition |
| `PlanFacts.DraftsFound` | tools/github_work_tracking.py:1486-1504 | the drafts are exactly those of the migrating non-external records, each found under its record's id |
| `PlanFacts.PeacefulIff` | tools/github_work_tracking.py:1620-1805 | a plan has no conflict exactly when its markers, drafts, labels, records and bindings each have none |
| `PlanFacts.FullPlanCreates` | tools/github_work_tracking.py:1684-1762 | in a full plan without record conflicts a drafted record for which nothing is reused has no target and no marked issue, and its own step is to create its draft |
| `PlanFacts.CreatedOnce` | tools/github_work_tracking.py:1684-1762 | in such a plan each drafted record that is not reused is created, with its draft, by exactly one operation of the batch, and no other operation writes its issue |
| `PlanFacts.PlanIsExecutable` | tools/github_work_tracking.py:1764-1805 | in every conflict-free plan, full, selected or scoped, both ends of each binding are reused or created by an earlier operation of the batch |
| `PlanRun.IndexIssues` | tools/github_work_tracking.py:1647-1651 | the loops build the specified index: issues by number, and one entry per opening comment |
| `PlanRun.IndexIsSound` | tools/github_work_tracking.py:1647-1651 | for distinct issues the index is right: each issue under its number, and every marker with exactly as many entries as the issues have opening comments |
| `PlanRun.IndexExists` | tools/github_work_tracking.py:1647-1651 | every repository, listed in any order, has an index that counts each of its opening comments |
| `PlanRun.PlanMigration` | tools/github_work_tracking.py:1620-1805 | the planning loops return exactly the specified plan of the repository as read: labels, then issues, then bindings, with every conflict |
| `PlanRun.ReconcileIssues` | tools/github_work_tracking.py:2007-2116 | the reconciling loops compute exactly the specified report |
| `IdealGitHub.NumbersDiffer` | tools/github_work_tracking.py:1620-1805 | after a full plan different drafted records end on different issues |
| `IdealGitHub.ApplyPlan` | tools/github_work_tracking.py:1893-1968 | applying a full conflict-free plan to an ideal GitHub leaves every drafted record's issue with the planned title, body, labels and parent, every used label present, and every other issue untouched |
| `Replan.SettledBody` | tools/github_work_tracking.py:1733-1762 | a record's issue afterwards carries its region exactly once, for creates, region updates and adopted legacy bodies alike |
| `Replan.MarkerHasTarget` | tools/github_work_tracking.py:1684-1732 | before a conflict-free full plan, a marker on an issue belongs to a record that targets that issue, and occurs there once |
| `Replan.SharedMarkerReported` | tools/github_work_tracking.py:1096-1102 | two drafted records with one marker make the second plan report a repeated marker |
| `Replan.ReplanIsEmptyIffMarkersDistinct` | tools/github_work_tracking.py:1620-1805 | after a full conflict-free plan is applied and the numbers are recorded, the second plan has no conflict and no operation exactly when no two drafted records share a source marker |
| `SharedMarkers.PlanIdsShareMarkers` | tools/github_work_tracking.py:1096-1102 | for every suffix the `plan:` and `PLAN-` ids differ and have the same marker |
| `SharedMarkers.SharedMarkersBreakTheFixpoint` | tools/github_work_tracking.py:1096-1102 | two simple records sharing a marker, each claiming its own unit, in an empty repository: the inventory is valid, the first plan is full and conflict-free, and the replan after applying and recording it is not empty |
| `SharedMarkers.PlanSevenTwice` | tools/github_work_tracking.py:1096-1102 | the same, hits included, for the concrete records `plan:7` and `PLAN-7` under a concrete policy |
| `Agreement.PlannerAgreesWithReconciler` | tools/github_work_tracking.py:1987-2116 | a full plan with nothing to do and no conflict leaves the reconciler nothing to report, and its mapping gives each migrating record its own target issue, injectively |
| `ReconciledPlan.AgreedLabelsAreSettled` | tools/github_work_tracking.py:1987-2004 | labels without a finding, and without a trial label in another letter case, leave the merge nothing to change and nothing to refuse |
| `ReconciledPlan.CleanDrafted` | tools/github_work_tracking.py:2007-2092 | a drafted record without a finding has its marker on exactly one issue, its recorded open target, with its own region and labels |
| `ReconciledPlan.NothingToPlanIffReconciled` | tools/github_work_tracking.py:2007-2116 | once every issue is recorded, a full plan has no conflict and no operation exactly when the reconciler reports nothing and drafts, label definitions, drafted parents and the trial label's letter case are in order |
| `ExternalParent.SilentButUnplannable` | tools/github_work_tracking.py:1764-1799 | for every child recorded below an external issue and natively bound to it: the inventory is valid and fully recorded, the reconciler reports nothing, and a plan, whatever it selects, is free of conflicts exactly when its scope leaves the child out |
| `ExternalParent.OneSuchInventory` | tools/github_work_tracking.py:1764-1799 | there is such a policy, parent and child |
| `Agreement.AppliedReconciles` | tools/github_work_tracking.py:2007-2116 | after an applied plan with different markers the reconciler reports nothing and maps each migrating record to its issue |
| `Agreement.AppliedFinalizes` | tools/github_work_tracking.py:2343-2386 | finalizing without a scope with those numbers succeeds and yields the inventory with exactly those targets |
| `Agreement.PipelineCloses` | tools/github_work_tracking.py:2343-2386 | plan, apply, reconcile, finalize, replan: the reconciliation is clean, the inventory finalizes, and the next plan is empty |
| `Agreement.FinalizedStaysValid` | tools/github_work_tracking.py:2343-2386 | finalizing a valid inventory, whole or a scope of it, keeps it valid |
| `Agreement.FinalizedIsMapped` | tools/github_work_tracking.py:2228-2243 | after finalizing without a scope the mapping check is silent exactly when every record that does not migrate was mapped before: nothing is left to ask of the others |
| `Agreement.FinalizedLosesNothing` | tools/github_work_tracking.py:2343-2386 | from a valid inventory to finalized issues: every open unit is claimed by one record and no other, which has its own issue, stands for one that has, or says why the work ends |
| `Agreement.BatchesMeet` | tools/github_work_tracking.py:2343-2386 | finalizing any scope of migrating records first and everything afterwards gives the inventory that finalizing at once gives |
| `Publication.WritesArePrefix` | tools/github_work_tracking.py:1893-1968 | for every batch and failure pattern the writes are a prefix of the operations, in order and once each, each exactly its own operation's request over the identities known by then, and right after its own durable intent record |
| `Publication.PassAndIncomplete` | tools/github_work_tracking.py:1893-1968 | `pass` exactly when every operation is validated and every record durable; `incomplete` exactly when only the outcome record is missing; `refused` exactly when a started run has conflicts |
| `Publication.UnknownIsUnsettled` | tools/github_work_tracking.py:1893-1968 | `unknown` exactly when the last operation sent was never settled (its write raised, its result was not journaled, or a confirming read raised); all sent before it were settled and checked |
| `Publication.PlannedRequests` | tools/github_work_tracking.py:1839-1849 | a run of a conflict-free plan lacks a reference only when an earlier create of the same run answered without an integer identity |
| `HonestRun.OperationSettles` | tools/github_work_tracking.py:1932-1967 | an operation the repository is ready for, answered with what the repository then holds, validates and goes on with that repository's identities |
| `HonestRun.PlanIsReady` | tools/github_work_tracking.py:1733-1805 | in a full conflict-free plan the repository is ready for each operation when its turn comes: an update still finds the issue it was planned for, a binding finds both issues |
| `HonestRun.HonestRunPasses` | tools/github_work_tracking.py:1893-1968 | a full conflict-free plan published through a client that does what it is asked passes with every record durable, sends every operation, and reports the issues that applying the plan leaves |
| `HonestRun.SomeRunPasses` | tools/github_work_tracking.py:1893-1968 | every full conflict-free plan has such a client, so its publication can pass |
| `Resume.InterruptedRunIsSeen` | tools/github_work_tracking.py:1711-1724 | after any number of operations of a full conflict-free plan, planning again from the unrecorded inventory reports every record whose issue was created and creates it no second time, and, where markers differ, plans every other untargeted record exactly as before |
| `Resume.RunLeavesAPrefix` | tools/github_work_tracking.py:1893-1968 | however a run of any batch ends, if the writes that were answered took effect, the repository is the one after all its writes or, only when the outcome is unknown, after all but the last |
| `Resume.StoppedRunIsSeen` | tools/github_work_tracking.py:1711-1724 | so planning again after any run of a full conflict-free plan, failed, unknown, incomplete or passed, reports the records created by then, creates none of them again, and, where markers differ, plans every other untargeted record as before |
| `PublishRun.AllOnDisk` | tools/github_work_tracking.py:1811-1827 | the journal is whole exactly when every record in memory reached the disk |
| `PublishRun.Journal.constructor` | tools/github_work_tracking.py:1815-1817 | a new journal holds nothing |
| `PublishRun.Journal.Write` | tools/github_work_tracking.py:1819-1827 | a record joins memory always and the disk only when kept; one lost record clears `journal_ok` for good |
| `PublishRun.Journal.Prepare` | tools/github_work_tracking.py:1934-1946 | a request is prepared exactly when nothing stops the operation before its write |
| `PublishRun.Journal.Settle` | tools/github_work_tracking.py:1951-1967 | what follows a write is the specified stage: the next state, or failed or unknown |
| `PublishRun.Journal.Finish` | tools/github_work_tracking.py:1920-1926 | every way out attempts the outcome record, and a pass without it is incomplete |
| `PublishRun.Journal.PublishBatch` | tools/github_work_tracking.py:1893-1968 | the whole loop returns the specified result, and the journal gains exactly the records of that run, in memory and on disk |
| `Capture.Recorder.constructor` | tools/plan117_custody_relay.py:908-921 | a new recorder is blank |
| `Capture.Recorder.Chunk` | tools/plan117_custody_relay.py:931-963 | raw bytes, then the index line, then the counters; any fault leaves exactly what was written so far and a recorder failed for good |
| `Capture.Recorder.EndOfFile` | tools/plan117_custody_relay.py:965-992 | an end record takes the next sequence number at the current offset, or fails for good |
| `Capture.ParseIndex` | tools/plan117_custody_relay.py:1403-1413 | the index parses exactly when every line is whole |
| `Capture.VerifyCapture` | tools/plan117_custody_relay.py:1338-1470 | the verifier returns the specified refusal or acceptance: the summary first, then lengths, index, every entry and both ends |
| `Capture.AcceptedTiles` | tools/plan117_custody_relay.py:1416-1470 | acceptance means a complete summary with the right argument and relay digests, chunks that tile each raw file exactly and in order, numbers without a gap, right digests, and both directions ended |
| `Capture.IndexDeterminesRaw` | tools/plan117_custody_relay.py:1416-1470 | with an injective digest, one index is accepted with one run id and one pair of raw files only |
| `Capture.ChunkKeepsFaithful` | tools/plan117_custody_relay.py:931-963 | a recorded chunk keeps the index scanning to the recorder's own counters |
| `RelayRun.DeliveredIsCommitted` | tools/plan117_custody_relay.py:1023-1070 | in every interleaving the committed bytes are a prefix of the raw file and of what was read, those delivered and those dropped are together no more than the committed ones, and while nothing was dropped the delivered bytes are a prefix of them |
| `DeliveryLaw.LawIffNothingTakenAfterDrop` | tools/plan117_custody_relay.py:1023-1050 | for every schedule of steps: whatever bytes of the same sizes it carries, the delivered bytes are a prefix of the committed ones, exactly when no step hands over a byte after bytes were dropped; towards the parent always |
| `DeliveryLaw.LawForDifferentBytes` | tools/plan117_custody_relay.py:1023-1050 | for one run whose bytes of a direction all differ, the law holds exactly under that condition |
| `RelayRun.DroppedIffShortWrite` | tools/plan117_custody_relay.py:1023-1050 | bytes are dropped in a direction exactly when one of its writes was short, never towards the parent |
| `RelayRun.ShortWriteSkips` | tools/plan117_custody_relay.py:1023-1050 | a run of two chunks whose first write is short: the child received bytes that are no prefix of the recorded ones |
| `RelayRun.FailureIsFinal` | tools/plan117_custody_relay.py:931-992 | after one recorder failure no later step of either direction changes the raw files, the index or the counters |
| `RelayRun.AcceptedIffBothEnded` | tools/plan117_custody_relay.py:1338-1470 | the capture of any run, failed or not, with the summary the relay writes, is accepted exactly when the run has an id and both end markers are in its index; then each raw file is all that was read, and all that was delivered exactly if nothing was dropped |
| `RelayRun.FailedAndAccepted` | tools/plan117_custody_relay.py:965-992 | a run whose recorder failed and whose capture is accepted |
| `RelayRun.RecordedIsAccepted` | tools/plan117_custody_relay.py:905-1008 | any failure-free interleaving of recorder calls under a run id is accepted exactly when both directions have an end record |
| `Control.SealKeepsDigest` | tools/plan117_custody_relay.py:155-176 | sealing changes no digest-bound key, so the digest stays, and is stored again |
| `Control.SealedIsRefused` | tools/plan117_custody_relay.py:179-211 | a sealed descriptor is refused whatever digest is expected, and for the right digest because its prompt is sealed |
| `Control.StartedLoads` | tools/plan117_custody_relay.py:558-569 | a started descriptor loads with exactly its own digest |
| `Control.Runtime.constructor` | tools/plan117_custody_relay.py:263-289 | a new runtime is open, with nothing forwarded |
| `Control.Runtime.MarkConnectionEof` | tools/plan117_custody_relay.py:291-293 | the connection's end is recorded and nothing else changes |
| `Control.Runtime.ObserveAcpSession` | tools/plan117_custody_relay.py:295-302 | a blank session is refused without effect; another becomes the session |
| `Control.Runtime.GetLiveSessionProof` | tools/plan117_custody_relay.py:340-391 | the reply is the first failing check's refusal or a proof, and nothing changes |
| `Control.Runtime.SendExistingSessionPrompt` | tools/plan117_custody_relay.py:393-474 | the reply is the first failing check's refusal or the forward, and only a success is remembered |
| `Control.Runtime.MarkDescriptorTerminal` | tools/plan117_custody_relay.py:654-668 | the file becomes its sealed form when it is readable and can be written, and stays otherwise; nothing else changes |
| `Control.Runtime.Dispatch` | tools/plan117_custody_relay.py:704-771 | a forwarded prompt also closes the runtime and seals the descriptor |
| `Control.Runtime.CloseControl` | tools/plan117_custody_relay.py:619-652 | closing the endpoint closes the runtime and seals the descriptor with the prompt's flag |
| `Control.OneForward` | tools/plan117_custody_relay.py:393-474 | over any sequence of calls at most one forward succeeds, and once the runtime closes after it, by the dispatch or by a later call, no proof is issued |
| `Control.DispatchesAreSingleCalls` | tools/plan117_custody_relay.py:704-771 | every run ends as a run of single calls without a dispatch does, with the same proofs and forwards in the same order, so what holds of calls made between a dispatch's own holds of dispatches |
| `Control.ForwardMatches` | tools/plan117_custody_relay.py:393-474 | a forward happens only in an open runtime before the connection's end, with owner, run, descriptor, connection and session matching and the process seen alive under its recorded identity |
| `Control.ProofIsLive` | tools/plan117_custody_relay.py:340-391 | a proof is issued only by an open runtime before the connection's end, to the owner of the run, and names the session and process live at that moment |
| `Control.SilentAfterEnd` | tools/plan117_custody_relay.py:340-474 | after a close or the connection's end no later call of any sequence yields a proof or a forward |
| `Control.RaisingForwardsRepeat` | tools/plan117_custody_relay.py:460-467 | a forward that raises leaves the state as it was, so it can be attempted any number of times |
| `Control.LoadsRefusedIffSealed` | tools/plan117_custody_relay.py:654-668 | after a dispatched prompt a load refuses exactly when the seal was written or it refused before, and the digest is unchanged |
| `Control.RefusalIsFinal` | tools/plan117_custody_relay.py:179-211 | a descriptor that refuses goes on refusing through every later sequence of calls |
| `Chains.WalkEndsOrRepeats` | tools/plan117_custody_contract.py:642-659 | following one link per node either ends or repeats within as many steps as there are links |
| `Chains.OneHead` | tools/plan117_custody_contract.py:634-639 | where links never meet, two heads that lead to one node are the same |
| `StageLedger.Repeats` | tools/plan117_custody_contract.py:642-659 | the walk over present records terminates; it repeats only if there is a cycle and always from a node on one |
| `StageLedger.VerifyChain` | tools/plan117_custody_contract.py:584-659 | accepts exactly records with unique ids, sound links and digests, no forks even at absent parents, and no cycle among present ones |
| `StageLedger.Terminals` | tools/plan117_custody_contract.py:665-680 | the terminals are exactly the unsuperseded records that succeeded or failed |
| `StageLedger.KeyTerminals` | tools/plan117_custody_contract.py:681-691 | accepts exactly terminals with positive ordinals, one per stage and ordinal |
| `StageLedger.CountStage` | tools/plan117_custody_contract.py:693-713 | returns k exactly when a stage's ordinals are 1 to k with k at most three |
| `StageLedger.SortTerminals` | tools/plan117_custody_contract.py:735-740 | the same terminals in strictly increasing order of stage and ordinal |
| `StageLedger.NormalizeLedger` | tools/plan117_custody_contract.py:662-745 | returns a ledger exactly on sound records: their terminals in order, and per stage the ordinal after those used |
| `RetryLedger.OneHeadPerChain` | tools/plan117_custody_contract.py:584-659 | present supersession links form disjoint acyclic chains: every record lies below exactly one unsuperseded head, and a terminal above it is that head |
| `RetryLedger.OrderIsIrrelevant` | tools/plan117_custody_contract.py:662-745 | permuting any records changes neither acceptance nor the ledger they have |
| `RetryLedger.LedgerOrdinals` | tools/plan117_custody_contract.py:694-745 | in a ledger each stage has the ordinals below its next one, each exactly once, and at most three |
| `RetryLedger.GrantIsNextOrdinal` | tools/plan117_custody_contract.py:920-993 | a grant is the ledger's next prompt ordinal, three, with correlations exactly 1 to 3 and prompts exactly 1 and 2 used and every identity check passed |
| `RetryLedger.GrantedIffThirdUnspent` | tools/plan117_custody_contract.py:920-993 | with its third correlation succeeded and second prompt failed transiently, a sound request is granted exactly when no prompt of ordinal 3 is terminal |
| `RetryLedger.NoSecondRetry` | tools/plan117_custody_contract.py:920-993 | every accepted extension that leaves a terminal third prompt unsuperseded is denied |
| `RetryLedger.SupersedingReopens` | tools/plan117_custody_contract.py:665-680 | for every granted ledger: recording the third prompt and superseding it with a superseded record is accepted and gives the granting ledger again |
| `RetryLedger.FivePlainRecords` | tools/plan117_custody_contract.py:920-993 | a concrete accepted ledger on which the retry is open |
| `RetryLedger.RetryIsReopened` | tools/plan117_custody_contract.py:665-680 | seven concrete records, for every 64-digit digest: the retry is granted, denied on every ledger after its third prompt, and has the granting ledger again after the superseding record |
| `Rounding.ByteBoundIsExact` | tools/measure_context_engine_limits.py:203-208 | a text is within a token limit exactly when it is within the rounded-down byte bound |
| `Rounding.RatioRounds` | tools/measure_context_engine_limits.py:196-200 | the ratio estimator is the ratio times the bytes, rounded up |
| `Packing.FillChunk` | src/context_engine/engine.py:246-258 | a chunk holds the next turns in order, fits both budgets, and is full for the turn after it |
| `Packing.Plan` | src/context_engine/engine.py:228-264 | the plan covers the turns in order with greedy chunks, or stops exactly at a turn that fits no chunk alone |
| `Packing.PlannedInputFits` | src/context_engine/engine.py:198-204 | for every subadditive estimator every call's real input is within both budgets, the first with the summary it was planned with and a later one with any acceptable summary, so the runtime check never fails |
| `Packing.RatioInputFits` | tools/measure_context_engine_limits.py:203-208 | under a rounded-up ratio with its byte bound, a later summary within its token bound alone is enough for every call to stay within both budgets |
| `Packing.RatioIsSubadditive` | tools/measure_context_engine_limits.py:196-200 | a rounded-up ratio estimates a joined text never above its parts |
| `Packing.ReusedIsNoMore` | src/context_engine/engine.py:228-264 | a reused summary that is still acceptable costs the first call no more than the reserve of a later one |
| `Packing.NeighboursExceed` | tools/measure_context_engine_limits.py:644-655 | two chunks in a row together exceed the room in a budget |
| `Packing.CallsAreBounded` | tools/measure_context_engine_limits.py:644-667 | for every history within a source limit of at least one byte, greedy packing uses at most the computed number of calls, in the two-budget and in the tokens-only case |
| `Packing.EmptySourceBreaksTheBound` | tools/measure_context_engine_limits.py:644-667 | for an empty source limit the computed bound is -1, which the empty plan exceeds |
| `Packing.LargestTurn` | tools/measure_context_engine_limits.py:670-679 | a single turn fits, after a summary or first, exactly up to the computed sizes |
| `Packing.MostTurns` | tools/measure_context_engine_limits.py:506-515 | the loop terminates with the number up to which, and beyond which not, the turns' authority fits |
| `Qualification.Qualifier.constructor` | tools/evaluate_context_summarizer.py:689-692 | a new run has made no call and holds no receipt |
| `Qualification.Qualifier.Record` | tools/evaluate_context_summarizer.py:693-696 | a receipt joins the list |
| `Qualification.Qualifier.Spend` | tools/evaluate_context_summarizer.py:698-701 | the sum of the costs, or unknown once one is |
| `Qualification.Qualifier.Unaffordable` | tools/evaluate_context_summarizer.py:703-713 | refuses exactly when the spend is unknown or the reservation would pass the cap |
| `Qualification.Qualifier.Capped` | tools/evaluate_context_summarizer.py:715-724 | a call is sent exactly when both caps allow it |
| `Qualification.Qualifier.Host` | tools/evaluate_context_summarizer.py:726-756 | any sequence of host actions leaves the specified state |
| `Qualification.Qualifier.Run` | tools/evaluate_context_summarizer.py:758-782 | the two-step run ends in the specified state and passes exactly as specified, also when the host raises |
| `Qualification.CallsStayWithinCap` | tools/evaluate_context_summarizer.py:698-724 | whatever a host does: at most two calls, none after an unknown cost, each with spend plus reservation within the cap |
| `Qualification.RunStaysWithinCap` | tools/evaluate_context_summarizer.py:678-782 | the same for every whole run, finished or broken off |
| `Qualification.PassedIsWithinCap` | tools/evaluate_context_summarizer.py:671-675 | a passed run knows its whole spend, within the cap, and both summaries are within the byte bound |
| `Qualification.SpendStaysWithinCap` | tools/evaluate_context_summarizer.py:678-782 | if at every moment each call's receipts stay within its reservation, the spend of a whole run, finished or broken off, is known and never exceeds the cap |
| `Qualification.AttemptsWithinReservation` | tools/evaluate_context_summarizer.py:627-638 | two attempts that use no more than the reserved tokens stay within the reservation |
| `Encodings.DoneIsEncoded` | tools/local_secret_scan.py:218-257 | what is read as a character is that character's encoding, and a scalar value |
| `Encodings.EncodedIsDone` | tools/local_secret_scan.py:218-257 | every scalar value's encoding, whatever follows, is read as that character |
| `Encodings.NotDoneIsIllFormed` | tools/local_secret_scan.py:218-257 | where no character is read none is encoded; after an error none ever will be, whatever is appended |
| `StrictDecoding.ScanEncoded` | tools/local_secret_scan.py:218-257 | decoding undoes encoding |
| `StrictDecoding.CleanIffEncoded` | tools/local_secret_scan.py:218-257 | bytes decode cleanly exactly when they encode some text, which is then returned |
| `StrictDecoding.ScanCut` | tools/local_secret_scan.py:237-246 | bytes may be cut anywhere: reading the unfinished rest in front of the second part continues the first |
| `StrictDecoding.Decoder.constructor` | tools/local_secret_scan.py:225-226 | a new decoder has been fed nothing |
| `StrictDecoding.Decoder.Feed` | tools/local_secret_scan.py:240-244 | feeding a chunk yields the text it completes and buffers the rest, or the start of the error relative to the bytes buffered before |
| `StrictDecoding.DecodeStrictly` | tools/local_secret_scan.py:218-257 | the loop returns the specified outcome, with absolute offsets |
| `DecodingFacts.DecodeMeans` | tools/local_secret_scan.py:218-257 | for every byte string and every cut: accepted exactly when the whole decodes without a NUL, with its text; else the offset is that of the whole's first error or first NUL |
| `DecodingFacts.Utf8OutcomeIsTheWhole` | tools/local_secret_scan.py:237-257 | of UTF-8 the outcome depends on the bytes alone; a refused offset follows encoded text and begins no character's encoding |
| `DecodingFacts.NulOffsetIsTrue` | tools/local_secret_scan.py:247-251 | the NUL offset is the true byte offset: the mark, the encoding of the text before, then the NUL's two bytes |
| `DecodingFacts.Utf16OutcomeIsTheWhole` | tools/local_secret_scan.py:237-257 | of UTF-16 acceptance and text depend on the bytes alone, and so does the offset unless a NUL precedes an error |
| `DecodingFacts.OffsetDependsOnTheCut` | tools/local_secret_scan.py:240-251 | whenever a NUL precedes an error, two cuts of the same file report different offsets |
| `DecodingFacts.NulBeforeError` | tools/local_secret_scan.py:240-251 | a six-byte file for which this happens |
| `ArchiveMoves.FindArchiveMove` | tools/local_secret_scan.py:271-287 | the loop finds a move exactly when one `archive` is inserted below `docs` |
| `ArchiveMoves.ArchiveTwins` | tools/doc_paths.py:72-90 | the loop lists exactly the twins, one per component below `docs` |
| `ArchiveMoves.MoveIffTwin` | tools/local_secret_scan.py:271-287 | for ordinary paths the scanner's test holds exactly when the source is unarchived and the destination is one of its twins |
| `ArchiveMoves.TwinsAreMutual` | tools/doc_paths.py:72-90 | a twin leads back exactly when something other than `archive` stands at or after the crossing, so always for paths not ending in `archive` |
| `ArchiveMoves.TrailingArchiveIsOneWay` | tools/doc_paths.py:72-90 | the smallest path whose twin does not lead back |
| `ArchiveMoves.ReferenceSurvives` | tools/doc_paths.py:93-95 | among any files a reference resolves after its target crossed one boundary, and one to the new place after the target went back if something other than `archive` stood at or after the crossing, only then when there is no other file |
| `ArchiveMoves.LinkSurvivesBothMoves` | tools/doc_paths.py:98-107 | a link that reached a file still reaches it after its document was archived beside its folder and its target crossed a boundary |
| `ArchiveMoves.ByteIdenticalMoves` | tools/local_secret_scan.py:327-353 | one malformed record exempts nothing; otherwise exactly the destinations of identical archive moves are exempt |
| `ArchiveMoves.ExemptIsATwin` | tools/local_secret_scan.py:290-324 | an exempted path stays below `docs`, in an `archive` it was not in, with the blob it had |

## Left out

- Transport, paging, `gh` subprocesses, command lines, sockets, listeners, child processes and fsync: only their success, failure or answer is modelled.
- Markdown scanning, body prose, link rewriting and manifests: units, drafts and their rendered inner text are given.
- `tools/github_work_tracking_rules.py`: reviewed data tables without a general law.
- Inventory.ValidateInventory: the text checks of statuses, priorities, identities, live owners, aliases, anchors and quotes are not modelled, because each is one comparison over regular expressions; problems are counted by kind, not worded.
- Inventory.NoOpenWorkLost: a unit's leading status token is given, because the status pattern is a regular expression.
- Labels.MergeLabels: case folding is ASCII, and labels are sets, so the sorted order of the source's tuple is not stated.
- PlanRun.PlanMigration: conflicts are a set, so the order and wording of the source's messages are not stated; the untouched list is not modelled.
- PlanRun.ReconcileIssues: findings are a set without wording, and selected and scoped reconciliation is proved only equal to its specification.
- Agreement.AppliedFinalizes: stated for the full run, whose mapping covers every migrating record; `Agreement.BatchesMeet` says what a scope of it gives.
- Publication.WritesArePrefix: reasons are not worded; the request's endpoint is its operation's kind and numbers.
- Capture.VerifyCapture: missing files, symbolic links and the parsing of JSON are not modelled; a summary field of the wrong type counts as absent.
- RelayRun.AcceptedIffBothEnded: forwarder loops are atomic steps rather than methods, because two threads interleave; exit codes and child termination are not modelled; a write that raises may have delivered any part of its chunk.
- Resume.StoppedRunIsSeen: a write that was answered took effect, one that raised may have; foreign edits in between are not modelled.
- That publishing selected batches one after another reaches the repository the full plan reaches is not proved; `NativeForest` and `PlanFacts.PlanIsExecutable` cover each such batch, `Agreement.BatchesMeet` the recording of their issues.
- Control.Runtime.GetLiveSessionProof: the proof's evidence and digest are one flag saying that it could be built; the endpoint's extra refusal of a blank caller is modelled for prompts only.
- RetryLedger.GrantedIffThirdUnspent: run reservations and supplemental facts are not modelled.
- Packing.CallsAreBounded: the smallest rendered turn is a positive parameter, and turns are their rendered sizes.
- Qualification.Qualifier.Run: fact checking is given as passed or not, and dollars are exact reals.
- StrictDecoding.DecodeStrictly: which files count as UTF-16 is given by the caller; reasons are not worded.
- ArchiveMoves.ByteIdenticalMoves: Git's output is given as records already split at NUL bytes, with paths as components.
- ArchiveMoves.LinkSurvivesBothMoves: paths are component sequences; symbolic links and the file system's own resolution are not modelled.
- The summary validator's grammars and `_asserted`, the paid envelope of `tools/evaluate_context_summarizer.py`, measurements and synthetic texts: heuristics and observations.
- `reduce_disposition`, `compute_eligible`, schemas and path containment: one reading settles them.
- The schedule, rehearsal and double of `tools/plan12_stage_c_*.py`, and the coverage, drift, evidence and concurrency tools: fixed scripts and wiring.
