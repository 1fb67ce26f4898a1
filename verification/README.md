# Whoisleuth workspace storage: a verified model

This project models how the application keeps an analyst's work in the browser, and proves what that
machinery promises when several tabs use it at once.

- **Local data.** Collections of records live in one database that every tab shares. An update reads a
  snapshot, runs the caller's function, prepares new content and commits it with a compare-and-swap over
  whole manifests, retrying twice on conflict. A commit whose acknowledgement times out is classified by
  later reads, and the outcome gates further writes.
- **Named workspaces.** A directory of workspaces with shared and exclusive locks, tombstones, deletions
  that cannot be cancelled, a copy coordinator and an idle lock.
- **Views.** Bounded admission of review items, paged text preview and the search worker's scheduler.

## How it is built

| files | what they hold |
|---|---|
| `Basics`, `Permutations` | optional and failing results, JavaScript text and its UTF-8 size, rearrangements |
| `LocalDataContent`, `LocalDataRoundTrip`, `LocalDataWriter` | the stored form of a collection: order-free definitions, round trips, and the writing and reading loops proved against them |
| `WorkspaceEnvelope` | sizes of encrypted records and the budget they need |
| `CommitPlan`, `CommitPlanLaws` | what one attempt plans from what it saw, and what landing it guarantees |
| `LocalDataProtocol`, `CommitLog`, `LocalDataInvariant`, `LocalDataSafety` | any number of operations in any number of tabs as one transition system, its history and its invariant |
| `LocalDataGuarantees`, `LocalDataRecovery`, `LocalDataInitialisation` | serialisability, truthful outcomes, progress, creation; what recovery can and cannot tell; whole initialisations with their rewrites |
| `FlagWorkspace` | a one-flag workspace: the assumptions hold of it, two flips in one millisecond count as one, and initialisations reject after writing |
| `IndexedDbStorage` | the keyed object stores, the transaction and the cursor, refining the abstract store |
| `LocalDataProvider` | the provider's methods over those stores, tied to a run of the protocol |
| `LegacyCopies` | multi-key writes to `localStorage` with compensation |
| `ReviewOrder`, `ReviewHeap`, `TopK`, `ReviewAdmission` | the admission order, the heap, the meaning of "best k" and the two-stage inbox |
| `ReviewReasons` | the priorities, due times and reasons of review items by their builders, against the order |
| `Utf8`, `ArtifactPreview` | UTF-8 by its grammar and its encoding, and the pages |
| `WorkspaceDirectory`, `WorkspaceLeases`, `WorkspaceLeaseSafety` | directory rows, the lifecycle protocol, and its safety |
| `WorkspaceCopy`, `WorkspaceCopyRuns` | the copy coordinator by itself, and run against the local-data protocol of its destination |
| `IdleTimer`, `SearchSession` | the smaller coordinators, as classes and over all their runs |

The local-data layers fit together as one chain. `IndexedDbStorage` shows that the real tables decide and
write as the abstract store does; `LocalDataProvider` shows that the provider's code over those tables
takes only steps of `LocalDataProtocol`; `LocalDataGuarantees` speaks of every run of that protocol.

## What is assumed

- Every tab runs the same build: `ValidConfig` says that domain normalisers are idempotent and rebuild
  their documents, that serialisation tells normal documents apart, that decoding undoes encoding, and that
  well-formed digests and file keys tell contents apart; `FlagWorkspace.AssumptionsAreConsistent` meets
  all of this at once. Record identifiers are stored trimmed, so rebuilding is assumed of trimmed identifiers.
- The browser settles overlapping transactions one at a time and in order (section 2.7 of the W3C Indexed
  Database API 3.0), and deletions of one database in order (section 5.3). An await point in a method is a
  call about which only its contract is known.
- Timeouts, aborts, quota failures, unreadable recovery reads, crashed tabs and the order of a cursor are
  nondeterministic choices. Clocks, nonces and chosen identifiers are parameters; workspace identifiers
  come from `crypto.randomUUID` and are assumed never to repeat.
- Legacy copies: the values before the call are read in one uninterrupted step, and so are a look of the
  undo and the write after it. What another tab writes to a key before our own write of the key is
  overwritten, as in the source.

## What the proofs found

- A timed-out update can be reported as saved although another tab's commit took effect in its place. It
  needs a foreign commit with the same time, revision and content; `VerdictIsWrongExactlyWithTwins` gives
  the exact condition, and distinct commit times rule it out.
- The write gate is one variable that each recovery overwrites, so an unknown outcome is lasting only
  while no other commit of the same provider is under way.
- An initialisation can reject, with a code that elsewhere means that nothing was written, after it has
  written: its verifying read fails after its creation was reported, or a rewrite of an older schema version
  fails after its creation was reported or an earlier rewrite was saved. `EndedCallWroteNothing` says exactly
  when.
- An empty collection can be written although its collection budget is unusable, and then cannot be read.
- Undoing legacy copies reports a concurrent change that never happened when two collections share a key,
  and does not notice another tab that wrote the very same text.
- Closing the copy coordinator during the source check or the last check of a copy does not stop the
  initialisation or the metadata write that follows.

## Model

| member | source | states |
|---|---|---|
| LocalDataWriter.PrepareLocalDataContent | frontend/src/lib/browser-local-data-content.ts:507-557 | The writer loop accepts exactly the documents that are admissible with no order of checking, and returns their stored records in ordinal order with byte count and digest; every refusal names a reason that holds of the whole document. |
| LocalDataWriter.EncodeRecords | frontend/src/lib/browser-local-data-content.ts:525-549 | One pass with a running byte budget and a growing identifier set establishes the order-free admission of all records, or a reason that condemns the whole list. |
| LocalDataWriter.PrefixOverBudget | frontend/src/lib/browser-local-data-content.ts:540-543 | A prefix over the collection budget condemns the whole list: stopping early never refuses a list whose total fits. |
| LocalDataWriter.VerifyStoredRecord | frontend/src/lib/browser-local-data-content.ts:293-327 | A record passes exactly when its shape is right, its key is new and its measured bytes fit what remains; only then is its key added. |
| LocalDataWriter.VerifyStoredRecords | frontend/src/lib/browser-local-data-content.ts:430-436 | The prefix checks accept exactly the collections that verify as a whole; the error tells a bad codec budget from bad records. |
| LocalDataWriter.NotWithin | frontend/src/lib/browser-local-data-content.ts:302-323 | A record refused by the running check belongs to no collection within the bounds. |
| LocalDataWriter.DecodeLocalDataSnapshot | frontend/src/lib/browser-local-data-content.ts:421-462 | The reader returns a document exactly when the captured collection decodes, and then that document. |
| LocalDataWriter.AssertPreparedLocalDataContent | frontend/src/lib/browser-local-data-content.ts:330-346 | The transport check of a preparation worker accepts exactly well-formed, ordered content within the plaintext bounds. |
| LocalDataWriter.PlaintextPreparationPassesTransport | frontend/src/lib/browser-local-data-content.ts:330-346 | Whatever the writer prepares with a codec that widens no budget passes the transport check. |
| LocalDataRoundTrip.AscendingPermutationIsUnique | frontend/src/lib/browser-local-data-content.ts:437-442 | Sorting any rearrangement of records in ordinal order restores exactly that order. |
| LocalDataRoundTrip.CursorOrderNeverMatters | frontend/src/lib/browser-local-data-content.ts:415-464 | Two arrival orders of the same records give the same document or the same refusal. |
| LocalDataRoundTrip.PreparedDocumentReadsBack | frontend/src/lib/browser-local-data-content.ts:415-464 | Round trip: prepared records captured in any order decode to the normal form of the input. |
| LocalDataRoundTrip.OnlyPreparedRecordsAreAccepted | frontend/src/lib/browser-local-data-content.ts:443-445 | Tamper evidence: under a manifest whose digest was computed for prepared content, exactly the rearrangements of that content are accepted. |
| LocalDataRoundTrip.MatchingContentIsSameDocument | frontend/src/lib/browser-local-data-content.ts:187-197 | When prepared content matches a stored manifest, the stored collection already holds that document. |
| WorkspaceEnvelope.EnvelopesFitTheirBound | frontend/src/lib/browser-workspace-encryption.ts:147-148 | For any records, the envelopes together never exceed the declared bound on their plaintext total and count. |
| WorkspaceEnvelope.Base64UrlSizes | lib/base64url.mts:3-18 | Unpadded base64url is four thirds rounded up and decodes to the same number of bytes. |
| WorkspaceEnvelope.BoundIsMonotone | frontend/src/lib/browser-workspace-encryption.ts:147-148 | More plaintext or more records never lower the declared bound. |
| WorkspaceEnvelope.BoundIsInRange | frontend/src/lib/browser-local-data-content.ts:255-261 | The limit check accepts the declared bound exactly while it is a safe integer. |
| WorkspaceEnvelope.EnvelopePassesDecoderGates | frontend/src/lib/browser-workspace-encryption.ts:251-262 | Every envelope of an admitted plaintext passes the size gates of the decrypting side. |
| WorkspaceEnvelope.EncryptionAdmitsEveryPlaintextCollection | frontend/src/lib/browser-workspace-encryption.ts:147-148 | Any document the plaintext codec stores, the encrypted codec stores too, with the same normal form, exactly while the widened byte limits are safe integers or there are no records. |
| CommitPlanLaws.PlanShape | frontend/src/lib/browser-local-data.ts:607-636 | A planned change expects exactly the manifests seen, writes some of the named collections, each with a readable manifest one revision up that matches its content. |
| CommitPlanLaws.FileKeysAreDisjoint | frontend/src/lib/browser-local-data.ts:224-234 | No file key is both deleted and written by a commit, and no key of a surviving reference is deleted. |
| CommitPlanLaws.ReferencedFilesSurvive | frontend/src/lib/browser-local-data.ts:224-234 | After a commit a body is stored exactly when it was newly selected, or was stored and is still referenced. |
| CommitPlanLaws.LandingKeepsStoreOK | frontend/src/lib/browser-local-data.ts:607-648 | A change planned from the current collections leaves every collection readable and every file body referenced. |
| CommitPlanLaws.UntouchedMeansEqual | frontend/src/lib/browser-local-data.ts:270-276 | An update that writes nothing to a collection leaves in it exactly the document the updater returned, normalised. |
| CommitPlanLaws.PlanRefinesSerialStep | frontend/src/lib/browser-local-data.ts:312-369 | Whether it writes or keeps, an attempt moves the documents and answers exactly as the intent applied to bare documents. |
| CommitLog.HistoryKeepsStoreOK | frontend/src/lib/browser-local-data-content.ts:415-464 | Every store of the history reads back and keeps only referenced files. |
| CommitLog.RevisionsGrow | frontend/src/lib/browser-local-data-content.ts:199-214 | Revisions never fall, and a change of manifest strictly raises them. |
| CommitLog.ManifestsNeverRecur | packages/workspace/local-data-storage.mts:60-73 | No ABA: a manifest that was replaced never comes back. |
| CommitLog.SomeEntryWrote | frontend/src/lib/browser-indexeddb-storage.ts:230-234 | A manifest shown now and not before was written by the last committed transaction that wrote its collection, at the time it carries. |
| CommitLog.LastWriterShows | frontend/src/lib/browser-indexeddb-storage.ts:230-234 | A store shows the manifest of the last transaction that wrote the collection. |
| CommitLog.NoRivalNoChange | frontend/src/lib/browser-indexeddb-storage.ts:209-213 | Collections nobody wrote in between still have the manifests that were captured. |
| LocalDataSafety.LandingSeesCurrentStore | frontend/src/lib/browser-indexeddb-storage.ts:205-213 | A transaction that passes its manifest checks was planned from exactly the collections it lands on. |
| LocalDataSafety.ConflictHasRival | frontend/src/lib/browser-local-data.ts:278-282 | A failed check means another transaction wrote one of the collections after the snapshot. |
| LocalDataSafety.ExpectationProvesNotApplied | frontend/src/lib/browser-local-data.ts:671-678 | The expected manifests still being in place after a timeout proves that the transaction did not and will not take effect. |
| LocalDataSafety.StepKeepsWorldOK | frontend/src/lib/browser-local-data.ts:244-369 | Every step of every operation keeps the protocol invariant. |
| LocalDataGuarantees.Serialisable | frontend/src/lib/browser-local-data.ts:312-369 | Over every run the documents are those of the committed intents run alone in commit order, and each committed result is the one its intent gives at its place. |
| LocalDataGuarantees.EveryCollectionReadsBack | frontend/src/lib/browser-local-data-content.ts:415-464 | In every reachable store each collection decodes to its document in any cursor order and keeps no unreferenced file. |
| LocalDataGuarantees.FailuresAreTruthful | frontend/src/lib/browser-local-data.ts:607-649 | Every error but the unknown outcome means that the operation wrote nothing, except an initialisation whose own commit was reported before its verifying read failed; no operation writes twice. |
| LocalDataGuarantees.UnchangedIsSerial | frontend/src/lib/browser-local-data.ts:354-359 | A call that reports success without writing gives its serial answer on documents that already satisfy it. |
| LocalDataGuarantees.ConflictsHaveRivals | frontend/src/lib/browser-local-data.ts:361-369 | An update gives up with a conflict only after three commits by others to its own collections while it ran, the rewrite of an older schema version only after one. |
| LocalDataGuarantees.CreatedAtMostOnce | frontend/src/lib/browser-local-data.ts:474-507 | Each collection is created at most once, at revision 1, never over leftover records or files. |
| LocalDataGuarantees.CreatedWithApproval | frontend/src/lib/browser-local-data.ts:466-490 | A workspace that requires existing collections creates only approved ones, and an approved creation never replaces a retained legacy document. |
| LocalDataGuarantees.ReadyMeansReadable | frontend/src/lib/browser-local-data.ts:509-512 | An initialisation past its verifying read has read every declared collection as one store of the history held them, and they stay present. |
| LocalDataInitialisation.WrittenExactlyWhenLanded | frontend/src/lib/browser-indexeddb-storage.ts:199-253 | An operation has written exactly when one of its transactions landed, whatever it reported. |
| LocalDataInitialisation.UntoldCallWroteNothing | frontend/src/lib/browser-local-data.ts:462-530 | Whatever the commit times, an initialisation that ended with known outcomes and was told of no commit of its own, creation or rewrite, wrote nothing. |
| LocalDataInitialisation.EndedCallWroteNothing | frontend/src/lib/browser-local-data.ts:462-530 | With distinct commit times, an initialisation that ended with known outcomes, rejected or resolved, wrote nothing exactly when its creation was not reported and none of its rewrites was saved. |
| LocalDataInitialisation.FailsAfterCreating | frontend/src/lib/browser-local-data.ts:497-511 | Calls reject after writing: whenever creation is possible there is a run in which it takes effect and the verifying read times out. |
| LocalDataInitialisation.FailsInRewriteAfterCreating | frontend/src/lib/browser-local-data.ts:497-521 | And one in which every read succeeds and the rewrite of an outdated collection fails with a write error: the call rejects and its creation stands. |
| LocalDataInitialisation.InitialisationWritesEachOnce | frontend/src/lib/browser-local-data.ts:474-522 | Over every run one initialisation writes each collection at most once, by creating or by rewriting it. |
| LocalDataInitialisation.ResolvedMeansCurrent | frontend/src/lib/browser-local-data.ts:509-529 | An initialisation that resolves leaves every declared collection present and in its current schema version, races with other tabs included. |
| CommitPlanLaws.UpgradeChangesNoDocument | frontend/src/lib/browser-local-data.ts:513-518 | Rewriting an older schema version is invisible to the documents. |
| LocalDataRecovery.WrongVerdictNeedsTwins | frontend/src/lib/browser-local-data.ts:656-666 | A verdict of committed for a commit that never took effect needs a foreign commit of the same time, revision and content for every written collection. |
| LocalDataRecovery.VerdictIsWrongExactlyWithTwins | frontend/src/lib/browser-local-data.ts:656-666 | Exactly when that verdict is wrong: every collection the commit would have written now holds what such a foreign commit wrote last. |
| LocalDataRecovery.SavedExactlyOnce | frontend/src/lib/browser-local-data.ts:607-649 | When no two transactions carry the same time, every update reported as saved is in the history exactly once with the serial result of its place. |
| LocalDataRecovery.EqualTimesLoseAnUpdate | frontend/src/lib/browser-local-data.ts:614-615 | Without that condition it fails, under a codec that draws no nonces, for every update that changes anything: two tabs report a save and one commit happened. |
| FlagWorkspace.AssumptionsAreConsistent | frontend/src/lib/browser-local-data-content.ts:92-113 | What the proofs assume of definitions, codecs and digests can be met all at once. |
| FlagWorkspace.TwoFlipsOneChange | frontend/src/lib/browser-local-data.ts:614-615 | The same in one concrete workspace: two tabs negate a flag at one time, both are told it was saved, and it has been negated once. |
| FlagWorkspace.CreationTimesOut | frontend/src/lib/browser-local-data.ts:497-511 | In the same workspace, an initialisation creates the flag and rejects with a timeout. |
| FlagWorkspace.CreationStandsWhenRewriteFails | frontend/src/lib/browser-local-data.ts:497-521 | Beside a second flag in an older schema version, it creates the first, fails to rewrite the second, and rejects with a write failure. |
| LocalDataRecovery.UnknownBlocksUntilClosed | frontend/src/lib/browser-local-data.ts:386-395 | With no other commit of the provider under way, an unknown outcome lasts and blocks its commits until it is closed. |
| LocalDataRecovery.SecondRecoveryReopens | frontend/src/lib/browser-local-data.ts:639-642 | With two commits under way, the second recovery overwrites the first one’s unknown outcome and writes are accepted again. |
| IndexedDbStorage.IndexedDbLocalDataStorage.Commit | frontend/src/lib/browser-indexeddb-storage.ts:199-253 | One transaction: the verdict is decided on the old tables, and the new tables are the old ones with the whole change, or unchanged. |
| IndexedDbStorage.IndexedDbLocalDataStorage.ReadBoundedStoredRecords | frontend/src/lib/browser-indexeddb-storage.ts:57-91 | The bounded cursor accepts exactly the collections within its bounds, whatever order the browser lists them in. |
| IndexedDbStorage.IndexedDbLocalDataStorage.Capture | frontend/src/lib/browser-indexeddb-storage.ts:136-175 | A snapshot returns the manifest and every row once, or says which check failed. |
| IndexedDbStorage.CommitDecides | frontend/src/lib/browser-indexeddb-storage.ts:205-229 | On tables holding an abstract store the transaction reports conflict, leftovers or success exactly as the compare-and-swap on that store. |
| IndexedDbStorage.CommitRefines | frontend/src/lib/browser-indexeddb-storage.ts:230-239 | Range deletes, puts and file changes together install exactly the planned change and touch nothing else. |
| IndexedDbStorage.PlannedRowsAreOwn | frontend/src/lib/browser-local-data-content.ts:544-548 | The rows of a planned change are filed under their own collection, one per lookup key. |
| IndexedDbStorage.CursorIsRearrangement | frontend/src/lib/browser-indexeddb-storage.ts:70-88 | Whatever order the cursor takes, it returns the collection’s records. |
| IndexedDbStorage.CaptureReadsBack | frontend/src/lib/browser-indexeddb-storage.ts:136-175 | A snapshot of a represented collection is within its bounds and decodes to the collection’s document. |
| IndexedDbStorage.WriterAdmitsWhatCursorReads | frontend/src/lib/browser-indexeddb-storage.ts:68-69 | The cursor admits what the writer admitted, except an empty collection whose codec declares no usable budget. |
| IndexedDbStorage.EmptyCollectionCannotBeRead | frontend/src/lib/browser-indexeddb-storage.ts:68-69 | Such a collection exists under the plaintext codec: twice its byte limit is no safe integer. |
| LocalDataProvider.BrowserLocalDataProvider.UpdateMany | frontend/src/lib/browser-local-data.ts:286-370 | The retry loop over the real tables, with reads that may fail and single updates that may be aborted, returns the outcome of an operation in a run of the protocol; the run is extended and the tables still hold its store. |
| LocalDataProvider.BrowserLocalDataProvider.Initialize | frontend/src/lib/browser-local-data.ts:462-530 | When the call resolves, its operations in the run make it `Resolved`; when it rejects, one of them failed with that error, or lost a rewrite to another tab and could not read the collection again; either way all of them have finished. |
| LocalDataProvider.BrowserLocalDataProvider.Rewrite | frontend/src/lib/browser-local-data.ts:513-521 | A collection found outdated is prepared again and committed once over the manifest it was read with, or lost to another tab. |
| LocalDataProvider.PlanAttempt | frontend/src/lib/browser-local-data.ts:321-359 | The loop over the listed collections, through the writer’s own loop, arrives at the plan the protocol prescribes for what was seen. |
| LocalDataProvider.PrepareUpdate | frontend/src/lib/browser-local-data.ts:264-276 | One collection of an update ends untouched, refused or prepared under its next manifest, as the protocol’s draft says. |
| LocalDataProvider.BrowserLocalDataProvider.Commit | frontend/src/lib/browser-local-data.ts:607-649 | A commit, acknowledged, timed out or never sent, leaves its call confirmed, retrying or failed, and the write gate in the matching state. |
| LocalDataProvider.BrowserLocalDataProvider.ClassifyTimedOutCommit | frontend/src/lib/browser-local-data.ts:651-682 | Two later reads classify a timed-out commit as the protocol’s recovery steps do. |
| LocalDataProvider.BrowserLocalDataProvider.ReadSnapshots | frontend/src/lib/browser-local-data.ts:598-605 | One snapshot gives every collection’s manifest and document when all are present, and otherwise says whether one is missing, the read transaction failed, or a codec budget is unusable. |
| LocalDataProvider.EncodeCommit | frontend/src/lib/browser-local-data.ts:614-636 | The transaction handed to storage lists each expected manifest, written collection and file change of the plan once. |
| LegacyCopies.RestoreLegacyCopies | frontend/src/lib/browser-local-data.ts:397-452 | What is left in storage in every case, a refused undo included, as a function of what other tabs wrote between our operations; a conflict is reported exactly when the undo found a change. |
| LegacyCopies.FailedCallRestoresOrKeeps | frontend/src/lib/browser-local-data.ts:425-442 | A failed call with distinct keys, key by key: back to the value before when our value was still there, otherwise the other tab’s change stands; the conflict is reported exactly when some key was found changed; keys not written are left alone. |
| LegacyCopies.ForeignChangesAreKept | frontend/src/lib/browser-local-data.ts:428-431 | A key nobody else wrote since is restored; one found with another value keeps the last value another tab wrote. |
| LegacyCopies.EqualChangeIsUndone | frontend/src/lib/browser-local-data.ts:428-431 | The boundary: another tab writing the very same text is undone with ours, and no conflict is reported. |
| LegacyCopies.UndoCopies | frontend/src/lib/browser-local-data.ts:425-437 | The undo loop puts back every key still holding what was written, last first, leaves the others as they are, and reports whether there were any. |
| LegacyCopies.WriteCopies | frontend/src/lib/browser-local-data.ts:417-422 | The writing loop stops at the first refused write, with the copies before it in place. |
| LegacyCopies.QuietUndoRestores | frontend/src/lib/browser-local-data.ts:425-442 | With nobody else writing the undo restores everything, yet reports a conflict exactly when one key was written twice and held something else before. |
| LegacyCopies.SharedKeyRaisesFalseAlarm | frontend/src/lib/browser-local-data.ts:425-442 | Two copies under one fresh key and a third that does not fit are such a case. |
| ReviewOrder.CompareTransitive | frontend/src/lib/analysis/analyst-review-inbox.ts:202-225 | The eight-level comparison has no cycles. |
| ReviewOrder.CompareFlips | frontend/src/lib/analysis/analyst-review-inbox.ts:202-225 | Exchanging two items exchanges the verdict; with reflexivity the order is a total preorder. |
| ReviewReasons.OverdueReasonIsEarned | frontend/src/lib/analysis/analyst-review-inbox.ts:321-327 | The reason that overdue work is listed first is shown exactly beside the overdue items of the inbox’s own builders, and those are urgent. |
| ReviewReasons.OverdueReasonIsTrue | frontend/src/lib/analysis/analyst-review-inbox.ts:321-327 | It is true of them: such an item comes before every item that is not overdue. |
| ReviewReasons.OverdueWorkIsListedFirst | frontend/src/lib/analysis/analyst-review-inbox.ts:801-824 | In the inbox as a whole such an item stands before every item that is not overdue, and is never left out while one is admitted. |
| ReviewReasons.ActionUrgentWhenAnyDatePassed | frontend/src/lib/analysis/analyst-review-inbox.ts:515-519 | An open action is urgent exactly when its due or follow-up date, or the deadline of an unanswered request, has passed. |
| ReviewReasons.DatedWorkByDueTime | frontend/src/lib/analysis/analyst-review-inbox.ts:321-327 | Items shown as dated work are ordered by due time among those of one priority and lifecycle. |
| ReviewReasons.PriorityReasonsAreTrue | frontend/src/lib/analysis/analyst-review-inbox.ts:321-327 | The reasons that name a priority are shown beside undated items of that priority, the urgent one beside escalated Cases only. |
| ReviewOrder.TiesShareIdentity | frontend/src/lib/analysis/analyst-review-inbox.ts:224-224 | Only items with the same subject key and identifier tie. |
| ReviewHeap.HeapSiftUp | frontend/src/lib/analysis/analyst-review-inbox.ts:237-249 | The loop turns the used part of the array into its sifted-up form and leaves the rest alone. |
| ReviewHeap.HeapSiftDown | frontend/src/lib/analysis/analyst-review-inbox.ts:251-268 | The loop turns the used part of the array into its sifted-down form and leaves the rest alone. |
| ReviewHeap.SiftUpRestores | frontend/src/lib/analysis/analyst-review-inbox.ts:237-249 | Sifting up a heap with one entry too high restores the heap and rearranges its entries. |
| ReviewHeap.SiftDownRestores | frontend/src/lib/analysis/analyst-review-inbox.ts:251-268 | Sifting down a heap with one entry too low restores the heap and rearranges its entries. |
| ReviewHeap.RootIsWorst | frontend/src/lib/analysis/analyst-review-inbox.ts:292-292 | No entry of a heap is listed after its root. |
| ReviewAdmission.RetainTopAnalystReviewItems | frontend/src/lib/analysis/analyst-review-inbox.ts:270-303 | The result is the sorted best of the candidates up to the clamped limit, and both family counts are exact. |
| ReviewAdmission.HeapRefinesSortThenTake | frontend/src/lib/analysis/analyst-review-inbox.ts:270-303 | The heap ties place by place with sorting everything and keeping the first k, and equals it when identities are distinct. |
| ReviewAdmission.SameSelection | frontend/src/lib/analysis/analyst-review-inbox.ts:270-303 | Arrival order never shows beyond ties. |
| ReviewAdmission.ProjectionKeepsBest | frontend/src/lib/analysis/analyst-review-local-projections.ts:301-304 | What a bounded projection hands on is the best of its candidates, as the inbox will compare them. |
| ReviewAdmission.StagedAdmission | frontend/src/lib/analysis/analyst-review-inbox.ts:801-824 | An inbox built from bounded projections and its own items is the inbox built from every candidate at once. |
| ReviewAdmission.EveryCandidateAccountedFor | frontend/src/lib/analysis/analyst-review-inbox.ts:752-782 | Family by family, every candidate of every stage is displayed or counted as omitted, up to the largest exact integer. |
| TopK.TopIsUnique | frontend/src/lib/analysis/analyst-review-inbox.ts:270-303 | Two selections of the best k of the same collection agree place by place up to ties. |
| TopK.TopInStages | frontend/src/lib/analysis/analyst-review-inbox.ts:801-824 | top-k(top-k(A) + B) is top-k(A + B). |
| ArtifactPreview.ReadArtifactTextPage | frontend/src/lib/artifact-preview.ts:38-58 | A page read fails exactly for an unsupported size, a page out of range or bytes that are not UTF-8, and otherwise returns its bounds and escaped text. |
| ArtifactPreview.PageBounds | frontend/src/lib/artifact-preview.ts:42-50 | The two loops over the fetched bytes find where the page starts and ends in the file. |
| ArtifactPreview.PagesPartitionTheFile | frontend/src/lib/artifact-preview.ts:42-50 | Pages of any file, text or not, follow one another from the first byte to the last without gap or overlap. |
| ArtifactPreview.PagesAreTheText | frontend/src/lib/artifact-preview.ts:46-51 | All pages decode exactly when the whole file is UTF-8, and then they are its text in order, as decoded and as shown. |
| ArtifactPreview.NoControlIsShown | frontend/src/lib/artifact-preview.ts:53-56 | No control or formatting character reaches the screen. |
| Utf8.ByteLengthIsEncodedSize | frontend/src/lib/browser-local-data-content.ts:247-249 | The byte counts used in every budget are the sizes of the UTF-8 encoding, lone surrogates included. |
| Utf8.DecodeInvertsEncode | frontend/src/lib/artifact-preview.ts:51-51 | The fatal decoder accepts a byte sequence as a text exactly when it is that text’s encoding (sections 3 and 4 of RFC 3629). |
| WorkspaceDirectory.ActionsKeepDirectoryReadable | frontend/src/lib/browser-workspace-directory.ts:88-138 | Every transaction leaves a directory its own reader accepts, with names apart in any case. |
| WorkspaceDirectory.Transaction.OnRows | frontend/src/lib/browser-workspace-directory.ts:124-135 | A caller already answered no longer changes anything; otherwise the accepted change is prepared or the transaction aborted. |
| WorkspaceDirectory.Transaction.OnComplete | frontend/src/lib/browser-workspace-directory.ts:101-116 | A completed transaction answers a waiting caller with success exactly when its change was prepared. |
| WorkspaceDirectory.AnswersStayHonest | frontend/src/lib/browser-workspace-directory.ts:96-135 | Over any sequence of timer and transaction signals, what a caller has been told never claims more than the browser has decided by then and never changes afterwards. |
| WorkspaceLeases.SignalsAreSteps | frontend/src/lib/browser-workspace-directory.ts:88-138 | Each signal of a transaction is a step of the lifecycle protocol: rows change exactly when a prepared transaction completes, and the waiting operation goes on with success exactly when its caller is answered so. |
| WorkspaceLeaseSafety.StepKeepsWorldOK | frontend/src/lib/browser-workspace-directory.ts:171-254 | Every step of create, rename, acquire and remove keeps the directory invariant, callers that time out or vanish included. |
| WorkspaceLeaseSafety.DirectoryStaysReadable | frontend/src/lib/browser-workspace-directory.ts:32-46 | Every reachable directory passes its own reader: at most 1000 rows, one per identifier, names apart in any case. |
| WorkspaceLeaseSafety.LeasesAreSafe | frontend/src/lib/browser-workspace-directory.ts:224-236 | While a lease is held its row is present and ready, nobody else holds the lock exclusively, and no deletion, mark or drop of it is outstanding. |
| WorkspaceLeaseSafety.RowsOutliveTheirData | frontend/src/lib/browser-workspace-directory.ts:238-254 | A deleting row is never changed, and no row disappears while the data of its workspace exists. |
| WorkspaceLeaseSafety.StaleChangesNeverApply | frontend/src/lib/browser-workspace-directory.ts:164-169 | Comparing revision and state accepts exactly the row the caller saw. |
| WorkspaceLeaseSafety.RevisionsNeverRepeat | frontend/src/lib/browser-workspace-directory.ts:218-219 | A row’s revision is higher than every earlier one under its identifier. |
| WorkspaceLeaseSafety.CleanupOrdered | frontend/src/lib/browser-workspace-directory.ts:192-206 | A failed encrypted creation that does not find its row may remove its database: the insert can no longer land. |
| SearchSession.InvestigationSearchSession.Request | frontend/src/lib/investigation-search-session.ts:63-73 | A request is refused when closed, started when idle, and otherwise takes or keeps the place of its kind. |
| SearchSession.InvestigationSearchSession.OnMessage | frontend/src/lib/investigation-search-session.ts:74-85 | Only a reply to the active request settles it and starts the next kind in line. |
| SearchSession.InvestigationSearchSession.Close | frontend/src/lib/investigation-search-session.ts:41-55 | Closing settles the active request and every queued one, once. |
| SearchSession.EveryRequestSettlesOnce | frontend/src/lib/investigation-search-session.ts:41-90 | Over every run a request is waiting and unsettled or settled exactly once, and a closed session keeps nobody waiting. |
| SearchSession.SettlementsAreHonest | frontend/src/lib/investigation-search-session.ts:63-85 | A resolved request was answered in its own kind, a superseded one gave way to a later one of its kind. |
| SearchSession.StaleRepliesAreIgnored | frontend/src/lib/investigation-search-session.ts:75-75 | Once a request was settled, later replies to it change nothing. |
| SearchSession.QueuedKindStartsOnTime | frontend/src/lib/investigation-search-session.ts:63-85 | A kind with n kinds before it starts at exactly completion n + 1, counting the active request, with the latest request of its kind. |
| WorkspaceCopy.BrowserWorkspaceCopy.Continue | frontend/src/lib/browser-workspace-copy.ts:38-114 | Each continuation of the running operation moves the coordinator as its step says. |
| WorkspaceCopy.MetadataIsWrittenOnce | frontend/src/lib/browser-workspace-copy.ts:96-110 | Over every run the destination is initialised and the metadata write issued at most once each, at most one call starts after close, and nothing runs once the destination is released. |
| WorkspaceCopy.CallsAfterClose | frontend/src/lib/browser-workspace-copy.ts:87-92 | After close no operation starts, and a call that may change the destination starts exactly when the source check before initialisation or the last check before the metadata write passes late. |
| WorkspaceCopy.LateExactlyWhenUnguarded | frontend/src/lib/browser-workspace-copy.ts:98-103 | Over whole runs: some such call starts after close exactly when one of these two checks passed late. |
| WorkspaceCopy.NothingStartsLate | frontend/src/lib/browser-workspace-copy.ts:87-103 | Unless close comes during one of these two checks, nothing that may change the destination starts after it. |
| WorkspaceCopy.InitialisationStartsLate | frontend/src/lib/browser-workspace-copy.ts:99-100 | A run in which the destination is initialised after close was called. |
| WorkspaceCopy.MetadataWriteStartsLate | frontend/src/lib/browser-workspace-copy.ts:101-103 | A run in which the metadata write starts after close was called. |
| WorkspaceCopyRuns.WritesLandSafely | frontend/src/lib/browser-workspace-copy.ts:79-107 | Whatever other tabs do to the destination: the metadata write takes effect only over all-empty collections and leaves the captured documents in all of them, and a file write takes effect only beside the captured document and changes no document. |
| WorkspaceCopyRuns.MetadataLandsOnce | frontend/src/lib/browser-workspace-copy.ts:97-107 | The captured documents arrive at most once. |
| WorkspaceCopyRuns.CommittedMeansSucceeded | frontend/src/lib/browser-workspace-copy.ts:102-108 | While the write state is committed, the update issued last has returned its result. |
| IdleTimer.WorkspaceIdleTimer.CheckNow | frontend/src/lib/browser-workspace-lock.ts:34-41 | A check expires the session or leaves one pending check for the rest of the interval. |
| IdleTimer.ExpiresOnTime | frontend/src/lib/browser-workspace-lock.ts:27-49 | With a monotone clock and no reading more than some lateness late, every expiry comes after a full idle interval and within that lateness, and while armed exactly one check is pending. |
| IdleTimer.ExpiresOncePerIdlePeriod | frontend/src/lib/browser-workspace-lock.ts:42-47 | After an expiry nothing but new activity leads to another. |

## Left out

- WorkspaceLeaseSafety.LeasesAreSafe: assumes that a chosen workspace identifier never repeats; with a repeated identifier a cleanup deletion that timed out could still be outstanding.
- The promise an initialised provider caches, and refusals of undeclared definitions; one `initialize` call runs per provider at a time.
- The choice of a background worker for preparation.
- The retained-file codecs: file bodies are opaque texts under content-derived keys, and reading a body back (`readFiles`) is not modelled.
- Opening, upgrading and version changes of databases; they appear only as a commit that is never sent.
- Parsing and validating legacy `localStorage` documents; initialisation receives the resulting input, or none when the document cannot be used.
- Cryptography and hashing: only sizes, and digests and keys that tell contents apart.
- Locale-dependent tie-breaking of records with equal ordinals; such records are refused right after the sort.
- `analystReviewLifecycle`, and of the builders of review items all but priority, due time and reason: a function from items to lifecycles and arbitrary candidates.
- Queue membership, filters and labels of the review inbox: direct case distinctions.
- PNG header reading and decoding, downloads, navigation, themes and other views.
- The loopback storage adapter, feeds, monitoring clients and worker plumbing.
- Error wording: errors are distinguished by what they mean for the data.
