# What this project models

A Dafny model of a governed runner and of the knowledge releases it runs with, and proofs about it.
`dafny verify dfyconfig.toml` checks everything.

**Finalization.** `Finalization.dfy` is the commit coordinator over its three participants as a
transition system: whatever happens between two awaits is one step, and any number of commits,
ordinary emits and appends, evidence writes, lease operations, aborts and clock readings come in
between. The participants are `Journal.dfy`, `EventSink.dfy` (with its reservation state machine)
and `EvidenceSink.dfy`, all reading one visibility set (`Visibility.dfy`) behind one fence each
(`Fence.dfy`). `FinalizationStores`, `FinalizationProofs` and `FinalizationRuns` carry the
invariant through every segment; `FinalizationTheorems` states what it gives over whole runs, and
`FinalizationLease` says when the confirmed generation is still current at the marker, and
`FinalizationWitnesses` shows that an undisturbed commit does publish and which stronger claims are
false. `TransactionalFinalization.dfy` is the object itself, each method proved equal to its step.

**Durable record.** `Outbox.dfy` and its flush, `ExactlyOnce.dfy` (every ownership's outbox, a bag
of append messages delivered late and repeatedly, and the journal), `Lease.dfy`, `Machine.dfy`,
`Walk.dfy`, `Controls.dfy`, `Emitter.dfy` and `Scope.dfy` (what a conclusion may claim).
`DurableWalk.dfy` composes all of it with the coordinator: machine, outbox, messages, commits and
the ending of every attempt interleave freely. `DurableWalkOwners`, `DurableWalkProofs` and
`DurableWalkTheorems` prove that the durable walk of a concluded attempt is its machine's record;
`PageOrder.dfy` is about the order of rows on the shared page, `CommitNames.dfy` about commit
identities, `DurableWalkWitness.dfy` runs one attempt to its end, and `DurableWalkReports.dfy` is
about conclusions over an early-termination record and about the settlement fallback's report.

**Knowledge releases.** `Manifest.dfy` gives the canonical form and the strict reader over bytes,
`ManifestProofs` and `ManifestTheorems` the round trips and exactly which bytes are canonical,
`ManifestIo.dfy` the loops. `Utf8.dfy` follows section 3 of RFC 3629. `TaskDelta.dfy`,
`Registry.dfy` and `PackageIdentity.dfy` cover deltas, two-revision succession and package identity.

**Trusted decisions.** `Paths.dfy` (UTF-16 code units), `Materialize.dfy` and `Evidence.dfy` (the
producer, the verifier, and their agreement).

Conventions. A run id and a commit id are strings; map keys the program builds by concatenation are
tuples, except where the concatenation itself matters (commit identities, registry keys). An event
is its sequence and its canonical text. A stored row of the event sink is an object, so a row
carries the number it was created with; a projection capability likewise carries the machine and
mint that made it. A participant that rejects has staged nothing, as the in-memory participants do
(`Journal.StagingTwiceStoresTwice` shows what would follow otherwise). Whether a string is
NFC-normalized, content digests, the clock, abort signals, phase outcomes and lost replies are
parameters. Where a theorem needs ASCII text to be NFC-normalized, digests to be 64 hex characters,
or digests to be injective, it says so.

Two places where the code does less than its comments say. The coordinator's comment calls the
renewal the last await before the marker, "so nothing can interleave": the answer is computed when
`renew` is called, and a release may come before the continuation runs; ownership is therefore
proved at the renewal, `LeaseMayMoveBeforeMarker` is the run that separates the two, and
`CurrentAtMarkerExactly` says for every publication when they agree. The settlement fallback reports
`terminal` from the recorded kind without asking the outbox, unlike `conclude`;
`IncompleteOverclaimsExactly` says when that overclaims, and `OverclaimIsReachable` is a run to it.

Three tempting claims are false of the code and are stated with their exact conditions: acceptance
of registry revisions does not compose (`SuccessionComposesExactly`), a link target need not be the
one that is checked when a path is repeated (`TargetsLookedAtExactly`), and bytes the manifest
reader accepts need not be canonical (`CanonicalExactly`).

## Model

| member | source | states |
|---|---|---|
| FinalizationTheorems.AtomicFinalization | services/runner-control/src/adapters/finalization.ts:241-417 | In every state reachable under any interleaving of commits, emits, appends, evidence writes, lease activity, aborts and clock readings: a published commit has its tail, bundle and terminal event durable, tail and bundle in exactly one copy; an unpublished one cannot be told from an absent one by any reader; no handle was abandoned after its commit published |
| FinalizationTheorems.NoResidue | services/runner-control/src/adapters/finalization.ts:251-257 | A commit that neither published nor is in flight has left no row in the journal, the event sink or the evidence sink |
| FinalizationTheorems.LedgersDrain | services/runner-control/src/adapters/finalization.ts:219-239 | When every operation has delivered its outcome, both in-flight ledgers are empty |
| FinalizationTheorems.PublicationIsGuarded | services/runner-control/src/adapters/finalization.ts:360-416 | A step that reveals anything publishes exactly one commit, of an operation with three staged writes and a confirmed renewal, not aborted, before its expiry, whose generation has no terminal and is not claimed by another commit |
| FinalizationTheorems.EveryPublicationIsGuarded | services/runner-control/src/adapters/finalization.ts:360-416 | The same about whichever step of a run first makes an identity published |
| FinalizationTheorems.PublishedForever | services/runner-control/src/adapters/finalization.ts:403-416 | Whatever a run does next, a published commit stays wholly visible with the same content |
| FinalizationTheorems.OneTerminalPerOwnership | services/runner-control/src/adapters/finalization.ts:185-193 | Published identities, recorded intents and finalized generations correspond one to one; two published commits of one run and generation are the same commit |
| FinalizationTheorems.SuccessMeansPublished | services/runner-control/src/adapters/finalization.ts:156-217 | A caller told that its commit succeeded has that identity published, wholly visible, with exactly its own intent, and for its own run and generation when identities name their holder |
| FinalizationTheorems.ReplayReconciles | services/runner-control/src/adapters/finalization.ts:171-193 | Once an identity is published or its generation finalized, a further call changes nothing; it is answered ok exactly when the published intent equals its own, and otherwise already_committed |
| FinalizationTheorems.OnlyWhatWasCalled | services/runner-control/src/adapters/finalization.ts:156-217 | Nothing is in flight, answered or published that no caller asked for |
| FinalizationTheorems.OwnedWhenRenewed | services/runner-control/src/adapters/finalization.ts:338-351 | Every publication has an earlier step at which the lease was asked on its behalf and the generation was current, and the operation did not move between that answer and the marker |
| FinalizationLease.CurrentAtMarkerExactly | services/runner-control/src/adapters/finalization.ts:338-366 | At that publication the confirmed generation is still current at the marker exactly when, between the answer and the marker, nobody released it and nobody abandoned the attempt it was granted to; no other lease operation can take it away |
| FinalizationWitnesses.LeaseMayMoveBeforeMarker | services/runner-control/src/adapters/finalization.ts:338-366 | The excluded case does happen: a concrete run in which the lease is released between the renewal answer and the marker and the commit still publishes |
| FinalizationWitnesses.SharedIdentityAnswersForAnotherRun | services/runner-control/src/adapters/finalization.ts:171-184 | A concrete run in which a call for another run under a published identity is answered ok: the hypothesis that an identity names its holder is needed |
| FinalizationWitnesses.UndisturbedCommitPublishes | services/runner-control/src/adapters/finalization.ts:241-417 | From any reachable state in which its participants accept it, the lease holds, and it is neither claimed, aborted nor expired, the commit's own steps publish it and tell its caller so |
| FinalizationRuns.Reachable | services/runner-control/src/adapters/finalization.ts:156-417 | The coordinator invariant (ledgers linked to tasks, each store holding exactly the records of its owners, beliefs of tasks and callers true) holds after every run |
| FinalizationRuns.EnterKeepsInv | services/runner-control/src/adapters/finalization.ts:156-217 | The synchronous entry ledger keeps the coordinator invariant |
| FinalizationRuns.ResumeKeepsInv | services/runner-control/src/adapters/finalization.ts:280-417 | Each segment from one await to the next keeps the coordinator invariant |
| FinalizationProofs.FailKeepsInv | services/runner-control/src/adapters/finalization.ts:251-257 | A live task that gives up leaves no trace of its commit in any store, and everyone else's records alone |
| FinalizationProofs.StageKeepsInv | services/runner-control/src/adapters/finalization.ts:262-278 | Staging one participant adds exactly this commit's record to that participant and to no other |
| FinalizationProofs.GateKeepsInv | services/runner-control/src/adapters/finalization.ts:367-417 | Verifying or retaking the claim, the last expiry check and the marker keep the invariant |
| FinalizationProofs.PublishKeepsInv | services/runner-control/src/adapters/finalization.ts:403-416 | The marker is set only over a commit every store already holds, so the owners of every store are unchanged by it |
| FinalizationRuns.RetireKeepsInv | services/runner-control/src/adapters/finalization.ts:225-239 | Retiring releases only what this operation still owns |
| FinalizationStores.AbandonedEverywhere | services/runner-control/src/adapters/finalization.ts:251-257 | Abandoning what an unpublished commit staged, in reverse order, removes exactly its records from all three stores |
| FinalizationMoves.StepMoves | services/runner-control/src/adapters/finalization.ts:156-417 | What any coordinator step can do to the journal, the landed evidence and the owners of stored records |
| TransactionalFinalizations.TransactionalFinalization.Commit | services/runner-control/src/adapters/finalization.ts:156-217 | The call segment changes the object exactly as the entry step of the transition system, keeps the invariant, and returns what it logs |
| TransactionalFinalizations.TransactionalFinalization.ResumeTask | services/runner-control/src/adapters/finalization.ts:241-417 | One continuation changes the object exactly as the resume step of the transition system and keeps the invariant |
| TransactionalFinalizations.TransactionalFinalization.AbandonStaged | services/runner-control/src/adapters/finalization.ts:251-257 | The reverse loop over staged writes leaves the stores as abandoning each of them in reverse order |
| TransactionalFinalizations.TransactionalFinalization.Prepare | services/runner-control/src/adapters/finalization.ts:262-278 | Asks participant 0, 1 or 2 to stage its part and answers with its handle or its reason |
| TransactionalFinalizations.TransactionalFinalization.FailTask | services/runner-control/src/adapters/finalization.ts:281-326 | Abandons everything staged and suspends with the refusal |
| TransactionalFinalizations.TransactionalFinalization.ProceedTask | services/runner-control/src/adapters/finalization.ts:280-343 | Abort, expiry, next participant or lease, in that order |
| TransactionalFinalizations.TransactionalFinalization.PassGate | services/runner-control/src/adapters/finalization.ts:367-416 | The synchronous section between the lease answer and the outcome |
| TransactionalFinalizations.TransactionalFinalization.PublishTask | services/runner-control/src/adapters/finalization.ts:413-416 | The one set insertion and the persistent authority, together |
| TransactionalFinalizations.TransactionalFinalization.RetireTask | services/runner-control/src/adapters/finalization.ts:234-237 | Releases the generation claim only while it is still this commit's |
| Visibility.PublishRevealsExactlyOneCommit | services/runner-control/src/run-state/visibility.ts:35-59 | Publishing reveals that commit's records and no others |
| Visibility.CommitLedger.Publish | services/runner-control/src/run-state/visibility.ts:38-40 | One insertion into the published set |
| Fence.ServedLocksOutLower | services/runner-control/src/run-state/fence.ts:52-66 | After serving a generation no lower one of that run is ever admitted, whatever is presented in between |
| Fence.FenceLedger.Refuse | services/runner-control/src/run-state/fence.ts:52-66 | Refuses exactly a generation below the mark, and otherwise raises the mark to it |
| EventSinkProofs.IdentityImpliesFact | services/runner-control/src/adapters/deterministic.ts:108-321 | All stored rows at one run and sequence carry the same event |
| EventSinkProofs.DurableIsWhatReadersSee | services/runner-control/src/adapters/deterministic.ts:131-148 | The durable-identity ledger answers an event exactly when a reader of the run would see it at that sequence |
| EventSinkProofs.EventIdentityTheorem | services/runner-control/src/adapters/deterministic.ts:138-374 | Over every history of emissions, stagings, abandons of issued handles and publications: an identity names one fact, a visible row stays visible, and a reader sees at most one row at an identity exactly when at most one commit staged there is published |
| EventSinkProofs.AtMostOneVisibleRow | services/runner-control/src/adapters/deterministic.ts:230-321 | For each identity of a valid sink by itself: at most one visible row exactly when at most one commit staged there is published |
| EventSinkProofs.EmitEffect | services/runner-control/src/adapters/deterministic.ts:150-207 | An emission never removes a visible row, adds only an ordinary row, replaces stages only by a durable equal event, and an accepted one is durable |
| EventSinkProofs.StageEmitEffect | services/runner-control/src/adapters/deterministic.ts:230-321 | Staging removes nothing, adds at most one invisible row under its own commit, and its handle names a stored row of that commit or nothing |
| EventSinkProofs.ReleaseEffect | services/runner-control/src/adapters/deterministic.ts:342-362 | Releasing a stage removes at most its own unpublished row |
| EventSinkProofs.MismatchedSequenceBreaksIdentity | services/runner-control/src/adapters/deterministic.ts:150-160 | Presenting an event under a sequence that is not its own lets two events wear one sequence: the emitter discipline is needed |
| RecordingSinks.RecordingEventSink.Emit | services/runner-control/src/adapters/deterministic.ts:150-207 | Answers and changes the sink exactly as the specified emission and keeps it valid |
| RecordingSinks.RecordingEventSink.StageEmit | services/runner-control/src/adapters/deterministic.ts:230-321 | Answers and changes the sink exactly as the specified staging and keeps it valid |
| RecordingSinks.RecordingEventSink.DurableCanonical | services/runner-control/src/adapters/deterministic.ts:131-148 | The loop finds the landed event, or the first published row at the sequence |
| RecordingSinks.RecordingEventSink.LiveReservation | services/runner-control/src/adapters/deterministic.ts:323-340 | Whether some stage of the reservation is still unpublished |
| RecordingSinks.RecordingEventSink.ReleaseStage | services/runner-control/src/adapters/deterministic.ts:342-362 | Releases one transaction's stage: never a published row, never another transaction's |
| RecordingSinks.RecordingEventSink.RetireStages | services/runner-control/src/adapters/deterministic.ts:190-201 | The loop over stages retires the whole reservation |
| RecordingSinks.RecordingEventSink.EventsOf | services/runner-control/src/adapters/deterministic.ts:364-369 | Returns the events of the visible rows of the run, in the order they were stored |
| RecordingSinks.ReadersSeeEachIdentityOnce | services/runner-control/src/adapters/deterministic.ts:364-369 | What a reader is given is exactly the durable events of the run, with no sequence number twice as long as no identity has two published stages |
| Journal.StagingIsInvisible | services/runner-control/src/run-state/in-memory.ts:198-221 | Staging a tail under an unpublished commit changes no reader's answer |
| Journal.AbandoningIsInvisible | services/runner-control/src/run-state/in-memory.ts:216-218 | Abandoning an unpublished tail changes no reader's answer |
| Journal.StagingTwiceStoresTwice | services/runner-control/src/run-state/in-memory.ts:198-221 | Staging is not deduplicated: the same tail staged twice is stored twice |
| Journal.InMemoryRunJournal.AppendFact | services/runner-control/src/run-state/in-memory.ts:93-180 | The fence, then replay or conflict by identity, then one new fact in its own category; a transition ends any hold |
| Journal.InMemoryRunJournal.Stage | services/runner-control/src/run-state/in-memory.ts:198-221 | Appends the tail under the commit, behind the fence |
| Journal.InMemoryRunJournal.AbandonStage | services/runner-control/src/run-state/in-memory.ts:216-218 | Filters out exactly the rows of the commit, without consulting visibility |
| Journal.InMemoryRunJournal.ReadCurrentState | services/runner-control/src/run-state/in-memory.ts:223-250 | Unpublished rows are ignored; a page with nothing readable is no journal; the state is where the readable walk ends |
| EvidenceSink.DroppingUnreadable | services/runner-control/src/adapters/deterministic.ts:454-456 | Dropping an unpublished commit's writes changes no reader's answer |
| EvidenceSink.RecordingEvidenceSink.Write | services/runner-control/src/adapters/deterministic.ts:392-430 | The fence, then replay or conflict by record identity, then one new record |
| EvidenceSink.RecordingEvidenceSink.Stage | services/runner-control/src/adapters/deterministic.ts:432-459 | Stores the sealed bundle under its commit, behind the fence |
| EvidenceSink.RecordingEvidenceSink.AbandonStage | services/runner-control/src/adapters/deterministic.ts:454-456 | Filters out exactly the commit's writes |
| EvidenceSink.RecordingEvidenceSink.WritesOf | services/runner-control/src/adapters/deterministic.ts:461-463 | Exactly the visible writes of one run, in order |
| Lease.LeaseTheorem | services/runner-control/src/run-state/in-memory.ts:259-349 | For any order of claims, replays, abandons and releases: a held generation belongs to exactly one granted, never-abandoned attempt; a claim is answered only with a generation that is then current, fresh or already this attempt's own |
| Lease.SpentStaysSpent | services/runner-control/src/run-state/in-memory.ts:259-349 | A minted generation that is current for no run never becomes current again, whatever is claimed, replayed, abandoned or released |
| Lease.AbandonedIsNeverGranted | services/runner-control/src/run-state/in-memory.ts:269-337 | An abandoned attempt is refused at every later claim |
| Lease.HeldExactly | services/runner-control/src/run-state/in-memory.ts:326-347 | A granted generation stays current exactly as long as it is not released and its own attempt is not abandoned |
| Lease.LosingCurrencyIsForever | services/runner-control/src/run-state/in-memory.ts:326-347 | In any history of the lease, a generation that some step takes from its run is current for no run in any later state |
| Lease.AbandonBeforeClaim | services/runner-control/src/run-state/in-memory.ts:326-337 | An attempt abandoned before it claimed is refused whenever it does claim |
| Lease.InMemoryRunLease.ClaimRun | services/runner-control/src/run-state/in-memory.ts:269-324 | Replay, abort, contention and mint, in that order |
| Lease.InMemoryRunLease.AbandonAttempt | services/runner-control/src/run-state/in-memory.ts:326-337 | Frees the run only while the attempt's generation is current, and remembers what it had earned |
| Lease.InMemoryRunLease.Renew | services/runner-control/src/run-state/in-memory.ts:339-341 | True exactly when the generation is current |
| Lease.InMemoryRunLease.ReleaseRun | services/runner-control/src/run-state/in-memory.ts:343-347 | Frees the run only from its current generation |
| ExactlyOnce.ExactlyOnceInOrder | services/runner-control/src/orchestration/run.ts:446-505 | With lost replies and late or repeated delivery: the log is generation-ascending, each generation's part is a prefix of what it recorded, pending is the matching suffix overlapping it by at most the head, an empty outbox means all landed, and no delivery is a conflict |
| ExactlyOnce.PageIsTheLog | services/runner-control/src/run-state/in-memory.ts:93-180 | Each category of the page is that category of the log; the hold is the last one since the last transition |
| ExactlyOnce.DeliveredStep | services/runner-control/src/run-state/in-memory.ts:93-180 | One delivery of any message in the bag keeps the exactly-once invariant |
| ExactlyOnce.NewMessageIsNext | services/runner-control/src/run-state/outbox.ts:42-55 | A message whose identity the journal has not seen carries exactly its owner's next recorded fact |
| ExactlyOnce.SeenMessageIsReplay | services/runner-control/src/run-state/outbox.ts:30-40 | A message whose identity the journal has seen carries the same fact again |
| Outboxes.FlushJournal | services/runner-control/src/orchestration/run.ts:456-486 | One tick: only acknowledged facts are removed, all of them have landed, at most the head has landed unacknowledged, and the end says drained exactly when nothing is pending |
| Outboxes.JournalOutbox.DrainMachine | services/runner-control/src/run-state/outbox.ts:65-74 | Takes over everything recorded since the last drain, transitions then rejections, and moves the machine cursor past it |
| Outboxes.JournalOutbox.Record | services/runner-control/src/run-state/outbox.ts:77-79 | Queues the fact under the next identity of its scope |
| Outboxes.JournalOutbox.Head | services/runner-control/src/run-state/outbox.ts:82-84 | The oldest pending fact, if any |
| Outboxes.JournalOutbox.HeadLanded | services/runner-control/src/run-state/outbox.ts:87-89 | Removes the head |
| Outboxes.JournalOutbox.IsEmpty | services/runner-control/src/run-state/outbox.ts:98-100 | Whether nothing is pending |
| Outboxes.RecordingIsQueueing | services/runner-control/src/run-state/outbox.ts:52-79 | Recording one list and then another is recording them together: identities depend on order alone |
| Outboxes.DrainingIsIncremental | services/runner-control/src/run-state/outbox.ts:65-74 | A second drain hands over exactly what was recorded since, and nothing twice |
| Machines.ProjectionRefinesStepping | services/runner-control/src/lifecycle/machine.ts:282-381 | A projection succeeds exactly when taking its steps one by one would all advance; adopting it at the same version reaches the same state, version and record, and consumes it |
| Machines.RecordIsAWalk | services/runner-control/src/lifecycle/machine.ts:201-381 | Over every history the record is a chain of table entries from REQUESTED, the version is its length, it only grows, nothing is added once terminal, and under a sub-table it has at most seven entries |
| Machines.OnlyMintedCapabilitiesMove | services/runner-control/src/lifecycle/machine.ts:331-381 | Adoption happens exactly for an unconsumed capability of this machine at its own version; anything else moves nothing |
| Machines.VersionsOnlyRise | services/runner-control/src/lifecycle/machine.ts:352-362 | A capability projected below the current version can never be adopted again |
| Machines.PermitsIsAdvancing | services/runner-control/src/lifecycle/machine.ts:150-152 | The pure query is true exactly when an advance would be granted |
| Machines.TerminalIsFinal | services/runner-control/src/lifecycle/machine.ts:233-239 | No operation moves a terminal machine |
| Machines.ChainsAreShort | services/runner-control/src/lifecycle/transitions.ts:77-88 | A walk over any sub-table of the declared table has at most seven steps |
| Machines.RunMachine.ApplyStep | services/runner-control/src/lifecycle/machine.ts:214-260 | Foreign claim, stale claim, terminal state, undeclared pair, in that order; otherwise one recorded transition |
| Machines.RunMachine.ProjectSteps | services/runner-control/src/lifecycle/machine.ts:282-329 | The loop projects the whole sequence or reports the first step that could not be taken, changing nothing but the minted set |
| Machines.RunMachine.AdoptProjection | services/runner-control/src/lifecycle/machine.ts:339-376 | Refuses unminted and stale capabilities; otherwise records the entries and moves the journal cursor by their number |
| Machines.RunMachine.HoldStep | services/runner-control/src/lifecycle/machine.ts:269-271 | Records a precondition rejection and changes nothing else |
| Machines.RunMachine.Confirm | services/runner-control/src/lifecycle/machine.ts:191-194 | Moves the cursors by what was handed over |
| Walk.EffectsFollowTransitions | services/runner-control/src/lifecycle/walk.ts:72-101 | Phases whose effects ran are a prefix; each ran only after all earlier transitions were applied in order; a finished walk applied every one |
| Walk.NarrowingNarrowsEffects | services/runner-control/src/lifecycle/walk.ts:72-101 | For any phase outcomes, effects and transitions under a sub-table are a prefix of those under the full one, and the walks differ only where the sub-table refused |
| Walk.WalkPhases | services/runner-control/src/lifecycle/walk.ts:72-101 | The loop computes the specified outcome, machine and number of phases run |
| Controls.NarrowingOnly | services/runner-control/src/orchestration/controls.ts:83-123 | Accepts exactly the tables all of whose defined pairs are declared pairs with the same target; the fresh table is a sub-table of the canonical one and answers every lookup as the supplied object did |
| Controls.CopyRow | services/runner-control/src/orchestration/controls.ts:102-119 | Copies exactly the defined cells of one row, or refuses at an added or redirected one |
| DurableWalkTheorems.DurableWalkIsTheWalk | services/runner-control/src/orchestration/terminate.ts:283-443 | When finish concludes terminal with a sealed bundle, readers of the journal see exactly the machine's transition record of this generation, in order; bundle and event are durable; the outbox is empty |
| DurableWalkTheorems.TerminalConclusionIsDurable | services/runner-control/src/orchestration/terminate.ts:84-144 | Any terminal conclusion: empty outbox, unlost fence, terminal machine, a governed record durable, and every transition of the machine durable |
| DurableWalkOwners.DrainedBeforeAdoption | services/runner-control/src/orchestration/terminate.ts:356-378 | Before the tail's length is added to the cursor, everything the machine recorded was handed over and has landed |
| DurableWalkTheorems.GateIsAdmissible | services/runner-control/src/orchestration/terminate.ts:373-402 | The commit finish calls is bounded by a record that has wholly landed |
| DurableWalkTheorems.AnswerIsOurs | services/runner-control/src/orchestration/terminate.ts:386-441 | A committed answer means the generation's one terminal is this commit with exactly the projected entries |
| DurableWalkTheorems.StepKeepsSound | services/runner-control/src/orchestration/terminate.ts:55-443 | Every step of the composed system keeps its invariant |
| DurableWalkWitness.ConclusionIsReachable | services/runner-control/src/orchestration/terminate.ts:283-443 | A concrete run that reaches a terminal conclusion with a sealed bundle |
| CommitNames.CommitIdNamesHolder | services/runner-control/src/orchestration/terminate.ts:393-393 | For run ids without a hash sign, the derived commit identity determines run, generation and terminal |
| DurableWalkReports.EarlyWalkExactly | services/runner-control/src/orchestration/terminate.ts:196-247 | After a terminal conclusion over an early-termination record, readers see the machine's whole record exactly when no commit of that generation is published |
| DurableWalkReports.EarlyWalkIsTheWalk | services/runner-control/src/orchestration/terminate.ts:163-247 | For a generation that never called finish, which is when the program writes that record, a terminal conclusion over it means the durable walk is the machine's whole record |
| DurableWalkReports.IncompleteOverclaimsExactly | services/runner-control/src/orchestration/settle.ts:25-60 | In every reachable state the last-resort report claims a terminal over a journal that lacks recorded facts exactly when a record was produced, the machine is terminal, the fence is held and more than the reply about one landed fact is outstanding; conclude would not claim it |
| DurableWalkReports.OverclaimIsReachable | services/runner-control/src/orchestration/settle.ts:45-52 | A concrete run to a state where that report is terminal and the journal holds nothing of the ownership |
| Scopes.ReachTerminalEndsTerminal | services/runner-control/src/run/scope.ts:143-161 | A terminal-branch request ends terminal, by that kind or as INDETERMINATE, or leaves the state unchanged with each refusal recorded |
| Scopes.RunScope.Reach | services/runner-control/src/run/scope.ts:143-161 | The declared terminal, then INDETERMINATE, then nothing |
| Scopes.RunScope.AdoptCommitted | services/runner-control/src/run/scope.ts:173-175 | Adoption goes through the machine's capability check |
| Scopes.RunScope.LoseFence | services/runner-control/src/run/scope.ts:117-119 | Marks the fence lost and touches nothing else |
| Scopes.RunScope.JournalTick | services/runner-control/src/orchestration/run.ts:456-458 | A dispossessed run hands over nothing; otherwise the machine is drained into the outbox |
| Scopes.RunScope.Finish | services/runner-control/src/orchestration/terminate.ts:294-373 | Fence, assembly, projection and drain up to the awaited tick, or a closed failure |
| Scopes.RunScope.PassSealGate | services/runner-control/src/orchestration/terminate.ts:374-386 | Nothing is committed over a pending outbox or an ineligible seal |
| Scopes.RunScope.Answered | services/runner-control/src/orchestration/terminate.ts:403-442 | Each commit answer is turned into adoption, dispossession or a closed failure as specified |
| Scopes.RunScope.Report | services/runner-control/src/orchestration/terminate.ts:84-152 | Reports the specified conclusion |
| PageOrder.LandedThenTail | services/runner-control/src/orchestration/terminate.ts:386-442 | When all a generation landed starts before its tail, a reader sees first what it landed and then the tail |
| Emitters.EmissionTheorem | services/runner-control/src/events/emitter.ts:115-199 | Under any other activity on the stream: acknowledged events have strictly increasing sequences and stay durable, an identity with unknown outcome is never presented for another event, and nothing is acknowledged after a fence refusal |
| Emitters.EmissionOnAnyStream | services/runner-control/src/events/emitter.ts:115-199 | From a fresh emitter over a stream any history may have partly occupied: acknowledged events have strictly increasing sequences, each is the durable event at its identity, and an identity of unknown outcome is handed to no other event |
| Emitters.RunEventEmitter.EmitEvent | services/runner-control/src/events/emitter.ts:115-199 | The loop ends, by the count of occupied identities ahead; each identity passed over was occupied, an emitted event is durable at its own, and only a fence refusal gives an identity back |
| Emitters.RunEventEmitter.PresentOne | services/runner-control/src/events/emitter.ts:166-197 | The identity is allocated before the effect and kept on every outcome but a fence refusal |
| Emitters.ConflictMeansOccupied | services/runner-control/src/adapters/deterministic.ts:160-189 | A conflict names an occupied identity, writes nothing, and leaves strictly fewer occupied identities ahead |
| ManifestTheorems.RoundTrip | packages/knowledge-toolchain/src/set-release.ts:187-440 | Whatever the writer accepts, the reader reads back, with deny, required and optional in byte order |
| ManifestTheorems.BytesIdentifyReleases | packages/knowledge-toolchain/src/set-release.ts:104-287 | Two accepted releases have equal manifest bytes exactly when they agree up to the order of their three lists |
| ManifestTheorems.CanonicalExactly | packages/knowledge-toolchain/src/set-release.ts:314-459 | Bytes are canonical exactly when the reader takes them, every scalar row holds SP and both integers are safe; they then serialize to themselves |
| ManifestIo.BareRowParses | packages/knowledge-toolchain/src/set-release.ts:338-350 | A family row without SP is read as a release named family and is not canonical |
| ManifestIo.UnsafeIntegerParses | packages/knowledge-toolchain/src/set-release.ts:305-305 | An integer above 2^53-1 is read and cannot be written back |
| ManifestIo.CanonicalSetReleaseManifest | packages/knowledge-toolchain/src/set-release.ts:187-287 | Produces the canonical bytes exactly for acceptable releases, and otherwise reports exactly the rules the release breaks |
| ManifestIo.BreaksNothing | packages/knowledge-toolchain/src/set-release.ts:187-264 | A release breaks no rule exactly when it is acceptable |
| ManifestIo.ParseSetReleaseManifest | packages/knowledge-toolchain/src/set-release.ts:314-440 | The strict reader, with its refusals in order |
| ManifestIo.IsCanonicalSetReleaseManifest | packages/knowledge-toolchain/src/set-release.ts:443-459 | Accepts exactly canonical bytes and returns them |
| ManifestIo.ReadScalars | packages/knowledge-toolchain/src/set-release.ts:336-350 | The scalar loop: names in order, each value a token, a missing row, a wrong name or a bad value refused |
| ManifestIo.ReadSections | packages/knowledge-toolchain/src/set-release.ts:374-408 | The section loop: known kinds only, never back to an earlier section |
| ManifestIo.CheckMembers | packages/knowledge-toolchain/src/set-release.ts:227-254 | No refusal exactly when every member is well formed and no id repeats |
| ManifestIo.CheckDenies | packages/knowledge-toolchain/src/set-release.ts:218-225 | No refusal exactly when every pattern is a token and none repeats |
| ManifestIo.IsStrictlySorted | packages/knowledge-toolchain/src/set-release.ts:410-411 | True exactly when neighbours strictly ascend by UTF-8 bytes |
| ManifestTheorems.ParseOfText | packages/knowledge-toolchain/src/set-release.ts:314-334 | Reading the bytes of whole lines is reading the lines |
| ManifestTheorems.TextOfParsed | packages/knowledge-toolchain/src/set-release.ts:320-334 | Bytes the reader takes are exactly the bytes of the lines it read |
| ManifestProofs.PrintParsedSections | packages/knowledge-toolchain/src/set-release.ts:380-408 | Section rows the reader takes are the printed form of what it read |
| Utf8.DecodeEncoded | packages/knowledge-toolchain/src/set-release.ts:101-101 | Encoding then strict decoding is the identity (section 3 of RFC 3629) |
| Utf8.EncodeDecoded | packages/knowledge-toolchain/src/set-release.ts:326-331 | Bytes that decode at all are exactly the encoding of what they decode to |
| Ordering.CompareBytes | packages/knowledge-toolchain/src/set-release.ts:104-114 | Negative, zero or positive as the byte order says, zero only for equal inputs |
| Ordering.SortIgnoresOrder | packages/knowledge-toolchain/src/set-release.ts:281-285 | Lists with distinct keys sort to the same list exactly when they have the same elements |
| Ordering.AscendingIsUnique | packages/knowledge-toolchain/src/set-release.ts:281-285 | There is only one ascending list of given elements |
| Decimal.ShortestIsDigits | packages/knowledge-toolchain/src/set-release.ts:305-305 | A shortest decimal spelling is the spelling of its value |
| TaskDeltas.DeltaConserves | packages/knowledge-toolchain/src/set-release.ts:1242-1347 | Every required pin survives unchanged; a selected module with a pinned id is exactly that pin; every other one was added, is undenied and eligible; only narrowed optional pins are missing |
| TaskDeltas.AddedIsSelected | packages/knowledge-toolchain/src/set-release.ts:1288-1329 | Every added id is selected at the exact revision it resolves to |
| TaskDeltas.AppliedIsSerializable | packages/knowledge-toolchain/src/set-release.ts:1169-1229 | The selection of an applied delta is always accepted for serialization |
| TaskDeltas.OutcomeIgnoresOrder | packages/knowledge-toolchain/src/set-release.ts:1242-1347 | For any permutation of the delta lists: one order is applied exactly when the other is, and then both outcomes have the same canonical bytes |
| TaskDeltas.DeltaIgnoresOrder | packages/knowledge-toolchain/src/set-release.ts:1125-1150 | Permuting a delta's lists changes neither whether it is accepted nor its canonical bytes |
| TaskDeltas.ApplyTaskDelta | packages/knowledge-toolchain/src/set-release.ts:1242-1347 | Succeeds exactly when permissions, narrowings, additions, delta and release are all in order, with the specified selection |
| TaskDeltas.CanonicalTaskDelta | packages/knowledge-toolchain/src/set-release.ts:1125-1150 | Canonical bytes exactly for module ids without repeats or contradictions |
| TaskDeltas.CanonicalResolvedSelection | packages/knowledge-toolchain/src/set-release.ts:1169-1229 | Canonical bytes exactly for well-formed selections |
| TaskDeltas.NarrowSelected | packages/knowledge-toolchain/src/set-release.ts:1266-1281 | Accepts exactly distinct optional pins, and removes exactly those |
| TaskDeltas.AddSelected | packages/knowledge-toolchain/src/set-release.ts:1283-1329 | Accepts exactly addable ids, and appends exactly their pins |
| Registry.ValidateRegistrySuccession | packages/knowledge-toolchain/src/set-release.ts:903-999 | Reports exactly the refusals the two revisions earn, none exactly when the later succeeds the earlier; counts the identities carried on and returns the new records in order |
| Registry.UnrefusedIsSuccession | packages/knowledge-toolchain/src/set-release.ts:886-999 | Two revisions earn no refusal exactly when both are identified without collision, every prior identity is carried with only a governed state move, and every new one is Released |
| Registry.StandingAreFirst | packages/knowledge-toolchain/src/set-release.ts:909-944 | The record that stands for an identity is the first that carries it |
| Registry.IdentityPersists | packages/knowledge-toolchain/src/set-release.ts:779-999 | Along any chain of accepted revisions an identity persists, all fields but state structurally equal, its state moving at most one step a revision and never back |
| Registry.IdentityBegins | packages/knowledge-toolchain/src/set-release.ts:779-999 | An identity that the first revision of a history lacks has exactly one birth: carried by every revision from there on and by none before, Released there, and since then the same record with its state at most one step further per revision |
| Registry.SuccessionComposesExactly | packages/knowledge-toolchain/src/set-release.ts:779-999 | Two accepted steps make one accepted step exactly when no identity goes from Released to Retired over the two and none that is new to both is already past Released |
| Registry.SuccessionIsNotTransitive | packages/knowledge-toolchain/src/set-release.ts:779-792 | Released to Deprecated and Deprecated to Retired are accepted, Released to Retired is not |
| Registry.Differences | packages/knowledge-toolchain/src/set-release.ts:829-844 | Reports exactly the leaf-level differences of two JSON values at their paths, none exactly when the values are equal |
| Registry.NoChangeMeansEqual | packages/knowledge-toolchain/src/set-release.ts:829-844 | Two JSON values have no leaf-level difference exactly when they are structurally equal |
| Registry.IndexRecords | packages/knowledge-toolchain/src/set-release.ts:909-944 | Reports exactly whether some record is malformed or some identity repeats, and indexes, in order, the first record of every identity |
| Registry.CompareRecord | packages/knowledge-toolchain/src/set-release.ts:963-979 | Reports exactly the leaf-level changes outside the state, and an ungoverned state move |
| Registry.CompareCarried | packages/knowledge-toolchain/src/set-release.ts:948-980 | Every prior identity is deleted, or compared with the record that stands for it now |
| Registry.CompareNew | packages/knowledge-toolchain/src/set-release.ts:982-996 | Returns the records whose identity is new, in order, and refuses exactly those not Released |
| PackageIdentity.ManifestBytes | packages/knowledge-toolchain/src/identity.ts:40-67 | The in-place writer fills exactly the computed size with the sorted rows |
| PackageIdentity.EnumerationOrderDoesNotMatter | packages/knowledge-toolchain/src/identity.ts:33-47 | For distinct paths the bytes do not depend on enumeration order |
| PackageIdentity.BytesIdentifyPackages | packages/knowledge-toolchain/src/identity.ts:40-70 | For NUL-free distinct paths and 64-character digests, equal bytes mean exactly the same set of path and file-digest rows |
| PackageIdentity.WriteRow | packages/knowledge-toolchain/src/identity.ts:56-65 | Writes path, NUL, digest and LF at the moving index |
| Paths.PrefixIsSegmentPrefix | packages/runner-core/src/primitives/paths.ts:30-35 | One path covers another exactly when its segments are the first segments of the other |
| Paths.PrefixIsTransitive | packages/runner-core/src/primitives/paths.ts:30-35 | Covering is transitive |
| Paths.RenormalizesToItself | packages/runner-core/src/primitives/paths.ts:18-28 | Renormalizing a normalized path returns it, or refuses it as scheme-qualified exactly when it now starts with a scheme |
| Paths.RenormalizationMayRefuse | packages/runner-core/src/primitives/paths.ts:18-28 | `./c:x` normalizes to `c:x`, which is then refused |
| Paths.NormalizedSegments | packages/runner-core/src/primitives/paths.ts:18-28 | A normalized path is its plain segments: none empty, `.` or `..`, no backslash, no NUL, not absolute |
| Materialize.DecideMaterialization | packages/runner-core/src/policy/materialize.ts:33-212 | Computes the decision table in its precedence order |
| Materialize.ProceedsExactly | packages/runner-core/src/policy/materialize.ts:33-212 | For every change set: proceeds exactly when everything normalizes, each path lies under some root and under no protection by segments, so does the target of the last change at each path, and the three bounds hold |
| Materialize.TargetsLookedAtExactly | packages/runner-core/src/policy/materialize.ts:124-142 | Every recorded link target is the one that is looked at exactly when no change is followed by one at its path with another target |
| Materialize.OnlySupersededTargetsSlip | packages/runner-core/src/policy/materialize.ts:124-212 | In a set that proceeds, a change whose own target is not allowed is followed by a change at its path with another target; at distinct paths there is none |
| Materialize.ProceedsWithAll | packages/runner-core/src/policy/materialize.ts:208-211 | What proceeds is the whole normalized change set, ascending by path |
| Materialize.OrderDoesNotMatter | packages/runner-core/src/policy/materialize.ts:33-212 | For distinct normalized paths neither the refusal code nor the result depends on input order |
| Materialize.RepeatedPathHidesATarget | packages/runner-core/src/policy/materialize.ts:126-142 | The superseded case does happen: of two changes at one path only the last one's target is looked at, so their order decides |
| Materialize.ResolveTargets | packages/runner-core/src/policy/materialize.ts:124-142 | Keeps, per path, the last recorded target; fails exactly when some target cannot be normalized |
| Evidence.ProducerVerifierAgree | packages/runner-core/src/evidence/construct.ts:52-161 | A constructed bundle verifies against the same bytes and artifacts exactly when no two observations at one normalized path have different digests |
| Evidence.VerifiedMeans | packages/runner-core/src/verification/verify.ts:50-210 | A verified bundle has exactly the observed path set, the recomputed digests and every identity field of the independent captures |
| Evidence.SuccessIsMaterializable | packages/runner-core/src/evidence/construct.ts:77-89 | Every change path of a success-classified bundle, and the last link target recorded at it, lies under a write root and under no protected prefix and none of the three authority sources, and the set keeps the bounds |
| Evidence.ConstructEvidence | packages/runner-core/src/evidence/construct.ts:52-161 | Missing, refused and faulted inputs, the success gate, unreadable and unnormalizable artifacts and the bundle contract, in that order |
| Evidence.VerifyEvidence | packages/runner-core/src/verification/verify.ts:50-210 | Verified exactly when the bundle is present, valid, consistent, field-complete on identities and accounts for exactly the observed artifacts |
| Evidence.IndexArtifacts | packages/runner-core/src/verification/verify.ts:81-93 | Fails exactly on two digests for one path |
| Evidence.CompareIdentities | packages/runner-core/src/verification/verify.ts:95-172 | Every identity field compared with a fresh capture; an acquisition fault outranks a divergence |
| Evidence.CompareObserved | packages/runner-core/src/verification/verify.ts:174-201 | No failure exactly when every observed artifact is readable, accounted for and has the recorded digest |
| Evidence.CaptureBindsBytes | packages/runner-core/src/authority/capture.ts:75-155 | The recorded digest is of the governing bytes; with an injective digest equal identities mean equal content |
| Evidence.ProducedRows | packages/runner-core/src/primitives/canonical.ts:6-12 | The producer's sorted rows account for the observations, and contradict each other exactly when those do |

## Left out

- Timers, polling and promise races (deadlines, settlement windows, the port guard): only a clock value, an abort flag and "the reply may be lost" remain.
- The recovery and settlement paths themselves: an attempt may be interrupted at its commit and call finish again, which the composed system allows; which path called it is not modelled.
- Session and workspace cleanup in `release`: it writes nothing the properties speak of.
- Schema validation of documents and bundles: `schema`, `contract` and `valid` are parameters, and a valid bundle is returned as it was given.
- Untyped-caller checks (wrong shapes of policy, capture or change-set values): the model's inputs are typed.
- JavaScript strings with lone surrogates: text that is encoded is a sequence of Unicode scalar values, because such a string is replaced on encoding and does not come back.
- SHA-256 and NFC normalization: deterministic functions with no further properties.
- The test-only lease seize hook, fixtures, file-system observers, adapter processes and transcript parsing, schema generation, git-backed ledger history.
- The sort routine itself: sorting is the stable insertion into byte order, which any sort computes on distinct keys.
- Building a release candidate from a family, record-against-manifest validation, member resolution by gates, link grammar and indicator scanning, gate plans, consent and eligibility: short checks that would only add easy members.
- Refusal texts, the offending element of a refusal and the order of a refusal list: which rules are broken is kept, wording and order are not.
- Property names inherited from `Object.prototype` in supplied tables, and `__proto__` keys in registry records. For a record with a `__proto__` field the program drops the field before comparing, and `{}` against a record whose `__proto__` is an empty object shows no change, so "structurally equal" is false of such records.
- The authority an attempt must have captured before `finish`, and must not have captured before an early-termination record: the composed system allows either at any time, so what holds only under that guard (`DurableWalkReports.EarlyWalkIsTheWalk`) carries it as a hypothesis.
- FinalizationTheorems.OwnedWhenRenewed: guarantees the generation current when the lease answered and not at the marker, because the code does not; `FinalizationLease.CurrentAtMarkerExactly` says when it still is.
- Materialize.OnlySupersededTargetsSlip: names the only way a disallowed target can pass; whether a given policy lets it pass depends on what else lies at the path.
