# Remnic OpenClaw plugin: a verified model

A Dafny model of the parts of the Remnic plugin that keep state across crashes,
interleavings and repeated calls, with proofs about all inputs, all runs or all
reachable states.

**The flush plan.** A foreign writer appends to `flush-plan.md`; the plugin snapshots
the text, imports it chunk by chunk and retires it through marker files, a rename and
a cleanup snapshot, and the next run repairs whatever a crash left. `Text`, `Chunking`,
`ChunkSettling`, `ImportTurns`, `SerialIngest` and `Marker` model the pieces; `PlanDirectory` models
putting a tail back and recovering snapshots; `Protocol` is the whole protocol as a
machine whose steps are its file operations, with appends and crashes between any two
of them. `ProtocolSafety` proves that no text is lost and that retirement follows
ingestion, `ProtocolProgress` that undisturbed runs finish, `ProtocolWriter` which
entries a writer may append for that to hold, `ProtocolStore` that the texts counted as
imported are those whose fingerprints the ingestor holds, `ProtocolReplay` that an import
interrupted any number of times is replayed from its marker as one import, and
`ProtocolOutcome` what an import leaves on disk when it ends or fails part of the way.

**The plugin host.** `ServiceLifecycle` (start and stop of many registries, a step at
each await), `PromiseChain` (per-key serial runs), `CodexIndex` (session bindings and
their reverse index), `BoundedDedupe` (first-in first-out memories and reply metadata).

**The vector store.** `FaissCommit` (three-file commit with roll-back, for any set of
failing calls), `FaissMerge` (row merging), `FaissLocks` (any number of processes, two
locks, deaths, stale-lock breaking).

**Smaller components.** `SearchRefill` (candidate refill loop), `IdentityAnchor` with
`AnchorForm` and `JoinedLines` (Markdown parser, printer and merge), `LiveGraph` (the console's live graph
and its orphan queue). `Options` and `Collections` hold shared definitions.

Loops, and objects the program updates in place, are methods and classes, each proved
against a function of its inputs or old state; interleavings are state machines over
their steps.

## Assumptions

- The flush-plan writer only appends, by path, and the plan path is a regular file.
- Hashes are injective: `Sha256` and `Fingerprint` are constructors.
- The ingestor is idempotent per fingerprint; `@remnic/core` itself is not part of this model.
- Writing a marker is one step (a temporary file and a rename), and so is the last read
  of the reconcile routine together with the overwrite after it.
- Snapshots are listed newest first. One Dafny character is one JavaScript string unit.
- While a snapshot's tail is missing from the recreated plan file, no append completes a
  verbatim copy of that tail there (`Protocol.AppendOk`, proved exact by
  `ProtocolSafety.AppendIsCountedExactly`). A writer meets this if no entry begins like
  any part at the end of an earlier one (`ProtocolWriter.RecognisableEntriesSuffice`).
  Entries that differ, or of which none is a prefix of another, are not enough: a partial
  import can stop inside an entry (`ProtocolWriter.PrefixFreeIsNotEnough` is a run).
- The rest of `Protocol.EventFits`, for the results over whole runs: the turn limit is at
  least 1 (a configured fraction below one would be floored to 0), the history is at most
  2^53 - 1 bytes long, and every batch of one turn reports reliably: at most the one turn,
  none when it failed, and no negative number of failures (`SerialIngest.Reliable`).
- Creating a lock file exclusively, and checking and unlinking a stale one, are atomic;
  a live holder's lock is not broken. Backup names are unused.
- The search backend returns prefixes of one ranking, and visibility is fixed meanwhile.

## What the proofs bring to light

- A turn limit of 0, or above 2^53 - 1, makes a pending marker unreadable or its replay
  inexact; a chunk dropped as white space leaves a marker without chunks
  (`Marker.ReplayIsExact` states the exact condition, `Marker.DroppedChunkIsNotReplayed`
  a text with such a chunk).
- The retries that settle the number of turns can go round in circles: any hundred characters
  without white space, under a turn limit of 306, end up in two turns of 354 characters each
  (`ChunkSettling.UnsettledTurnsOverflow`). They settle, and every turn fits, when the limit
  calls for one kind of wrapper and the text is tidy (`ChunkSettling.TidyPlansSettle`).
- An append can hide a plan that is being imported: "!--" after "<" makes a comment of it
  (`ProtocolReplay.CommentHidesThePlan`), and the run after a crash then drops the pending
  marker without a replay (`ProtocolReplay.HiddenPlanIsDropped`).
- Recovery that stops between unlinking a snapshot and removing the marker uses the marker
  a second time exactly if an older snapshot begins with its text too
  (`PlanDirectory.RestartAfterUnlink`, with two such snapshots in
  `PlanDirectory.MarkerIsUsedTwice`). The protocol never has two snapshots
  (`ProtocolSafety.SnapshotHasProcessedMarker`).
- A batch that reports more than its one turn, or a turn although it failed, makes the
  partial count too large (`SerialIngest.CountIsSuccessfulPrefix`).
- A stop tests the map of the registration that stops and drops the published one, whatever
  map that is by then: it leaves runs behind exactly when the published map is not empty
  (`PromiseChain.StopLeavesNoRunBehind`, with a run of the host in
  `PromiseChain.StopDropsBusyMap`).
- Serial order of flush-plan runs holds per map: one key can come to be run twice at once
  exactly when a second map has been made (`PromiseChain.OverlapNeedsTwoMaps`, with a run
  of the host in `PromiseChain.DroppedMapLetsRunsOverlap`).
- `if (expired)` skips the empty string, so an empty message key would never be forgotten
  (`BoundedDedupe.EmptyKeyIsStuck`). The keys that `src/index.ts:5852` builds are never empty.
- When a backup cannot be deleted after all swaps succeeded, the artifacts whose backups
  are already gone are lost (`FaissCommit.FailedDeletionLosesEarlierArtifacts`).
- A process that dies between two swaps can leave artifacts of two commits that a search
  accepts, if both have equally many rows (`FaissLocks.TornCommitIsAcceptedOnEqualCounts`,
  with a run from the start in `FaissLocks.TornCommitIsSearched`).
- Removing an edge that waits in the orphan queue has no effect, and a full queue makes
  the outcome depend on the order of arrival (`LiveGraph.RemovedOrphanReturns`,
  `LiveGraph.NodeAndEdgeCommuteUnlessOverflow`).

## Model

| member | source | states |
|---|---|---|
| Text.PrefixByByteLengthOf | src/openclaw-flush-plan-lifecycle.ts:170-180 | cutting a text at the UTF-8 length of a prefix returns exactly that prefix, whatever follows it |
| Chunking.ImportPrefix | src/openclaw-flush-plan-lifecycle.ts:639-656 | a wrapper is shorter than the turn limit unless it is the empty one |
| Chunking.FilterNonBlank | src/openclaw-flush-plan-lifecycle.ts:658-673 | the splitter's filter keeps the non-blank pieces in order |
| Chunking.SplitTextByMaxChars | src/openclaw-flush-plan-lifecycle.ts:658-673 | the scanning loop ends for every limit of at least one; its chunks are the non-blank pieces of a cutting in which each piece ends with the text, after the last newline in reach, or, if none is in reach, exactly at the limit |
| Chunking.SettleChunks | src/openclaw-flush-plan-lifecycle.ts:675-705 | the retry loop over chunk counts returns the chunks of the plan it started on |
| Chunking.SplitFlushPlanContentIntoChunks | src/openclaw-flush-plan-lifecycle.ts:675-705 | the chunks of a snapshot are those of the plan, and none for blank text |
| Chunking.PiecesConserve | src/openclaw-flush-plan-lifecycle.ts:658-673 | the pieces before the blank filter concatenate to the trimmed text |
| Chunking.PiecesAreBounded | src/openclaw-flush-plan-lifecycle.ts:658-673 | a piece exceeds its share by at most one character, and then that is its final newline |
| Chunking.PiecesAreTheCutting | src/openclaw-flush-plan-lifecycle.ts:658-673 | a text has exactly one cutting in which every piece ends with the text, after the last newline in reach, or at the limit, and the splitter produces it |
| Chunking.PiecesEndAtNewlines | src/openclaw-flush-plan-lifecycle.ts:661-670 | a piece that is not the last ends in a newline if and only if one is in reach (or it is a single newline), and then after the last in reach; without one it is as long as the limit |
| Chunking.PlanIsSplit | src/openclaw-flush-plan-lifecycle.ts:675-705 | settled or not, the chunks are the text split at the share the loop ended on |
| Chunking.SettledTurnsFit | src/openclaw-flush-plan-lifecycle.ts:675-705 | when the loop settles and the limit is at least one, every prefix plus trimmed chunk fits the limit |
| ChunkSettling.WrapperIsLongestThatFits | src/openclaw-flush-plan-lifecycle.ts:639-656 | no verbose, compact or empty wrapper that leaves room for text is longer than the one chosen |
| ChunkSettling.RoomBesideLongest | src/openclaw-flush-plan-lifecycle.ts:681-694 | the room for chunk text is what the longest wrapper of the turns leaves of the limit, no less, and at least one |
| ChunkSettling.OneTurnIffItFits | src/openclaw-flush-plan-lifecycle.ts:675-697 | a plan settles on one turn if and only if its trimmed text fits beside the wrapper of a single turn, and that turn is all of it |
| ChunkSettling.MoreRoomFewerPieces | src/openclaw-flush-plan-lifecycle.ts:658-673 | from a later start and with more room the splitter never makes more pieces |
| ChunkSettling.NothingIsDropped | src/openclaw-flush-plan-lifecycle.ts:658-673 | no piece of a tidy text is blank: one without white space before line ends, three newlines in a row or white space as long as the room |
| ChunkSettling.TidyPlansSettle | src/openclaw-flush-plan-lifecycle.ts:675-705 | for tidy texts of up to 999,999 characters, under limits that call for one kind of wrapper whatever the number of turns, the retries settle, every turn fits the limit and the turns spell the trimmed text |
| ChunkSettling.UnsettledTurnsOverflow | src/openclaw-flush-plan-lifecycle.ts:681-704 | a hundred characters without white space under a limit of 306: the eight retries go round in circles, and the two turns that result are 354 characters long |
| Chunking.ChunksCover | src/openclaw-flush-plan-lifecycle.ts:658-705 | every character of a snapshot is in a chunk or in a dropped piece of white space |
| Chunking.KeptEverything | src/openclaw-flush-plan-lifecycle.ts:658-673 | the chunks spell the text if and only if no piece was dropped |
| ImportTurns.FingerprintIsInjective | src/openclaw-flush-plan-lifecycle.ts:707-764 | with an injective hash, two contents of one plan share a fingerprint only if they are equal |
| ImportTurns.FreshRaws | src/openclaw-flush-plan-lifecycle.ts:1005-1033 | the raw texts of the turns are the chunks, in order |
| ImportTurns.TurnsSayEverything | src/openclaw-flush-plan-lifecycle.ts:707-764 | what the turns of a first attempt say, without their wrappers, is the whole plan, with nothing but white space between |
| ImportTurns.FreshTurnsFit | src/openclaw-flush-plan-lifecycle.ts:719-737 | when the number of turns settles, wrapper and text of every turn together fit the limit |
| ImportTurns.TurnsAreTimedInOrder | src/openclaw-flush-plan-lifecycle.ts:766-771 | the times of the turns follow their order, a millisecond apart, from the time of the import on |
| ImportTurns.IngestKnownChangesNothing | src/openclaw-flush-plan-lifecycle.ts:1300-1378 | an ingestor that is idempotent per fingerprint is unchanged by turns it has taken in |
| ImportTurns.RestartIsOneImport | src/openclaw-flush-plan-lifecycle.ts:1300-1378 | importing any prefix and then all turns again leaves the ingestor as one import does |
| SerialIngest.TakeBatch | src/openclaw-flush-plan-serial-ingest.ts:69-106 | one turn's batch is counted when it succeeds and ends the call otherwise |
| SerialIngest.IngestImportTurns | src/openclaw-flush-plan-serial-ingest.ts:69-106 | the loop's result: all eight counters summed over the successful prefix, with the failing batch's own counts, or the rethrown error |
| SerialIngest.ReliableCounts | src/openclaw-flush-plan-serial-ingest.ts:69-106 | after a reliable batch the count is at most the turns taken in, and the aggregate tells a failure exactly when the batch did not succeed |
| SerialIngest.CountsTheSuccesses | src/openclaw-flush-plan-serial-ingest.ts:69-106 | the processed count after k successful batches is at least k, and equal to k if and only if each of them reported honestly |
| SerialIngest.CountIsSuccessfulPrefix | src/openclaw-flush-plan-serial-ingest.ts:69-106 | the reported count is the length of the successful prefix if and only if every batch tried reported at most one turn, and none when it failed |
| SerialIngest.RethrowsOnlyWithoutProgress | src/openclaw-flush-plan-serial-ingest.ts:69-106 | the error is rethrown exactly when the first batch threw without having processed anything |
| SerialIngest.CountersAddUp | src/openclaw-flush-plan-serial-ingest.ts:69-106 | each of the eight counters is the sum of what the batches that were tried reported, but for one processed turn per silent success and one failure for a throw that reported none |
| SerialIngest.CutIsProcessedText | src/openclaw-flush-plan-lifecycle.ts:784-819 | when the chunks spell the trimmed text the cut is the leading white space and the processed raw text, a proper prefix of the file while turns are missing |
| SerialIngest.CutIsCovered | src/openclaw-flush-plan-lifecycle.ts:784-819 | whatever cut is taken, all of it is processed raw text or white space |
| Marker.BuildProcessedMarkerChunks | src/openclaw-flush-plan-lifecycle.ts:915-977 | the loop records the chunks of the turns that spell the trimmed content and are consistent, and nothing otherwise |
| Marker.SpellingTooLittle | src/openclaw-flush-plan-lifecycle.ts:915-977 | turns whose raw texts are too short for the content are never recorded |
| Marker.SpellingAll | src/openclaw-flush-plan-lifecycle.ts:915-977 | turns whose raw texts are the content are all found |
| Marker.ParseProcessedMarkerChunks | src/openclaw-flush-plan-lifecycle.ts:226-279 | the validating loop returns all chunks or, at the first invalid or inconsistent one, none |
| Marker.ChunkRoundTrip | src/openclaw-flush-plan-lifecycle.ts:226-279 | a chunk is read back as written if and only if it meets the validator's conditions |
| Marker.ChunksRoundTrip | src/openclaw-flush-plan-lifecycle.ts:226-279 | a list of chunks is read back as written if and only if all of them are valid |
| Marker.MarkerRoundTrip | src/openclaw-flush-plan-lifecycle.ts:182-224 | a marker with the byte count and hash of its content is read back as written if and only if its chunks are readable, and not at all otherwise |
| Marker.IncompleteMarkerIsIgnored | src/openclaw-flush-plan-lifecycle.ts:182-224 | a marker file without version, hash, byte count, time or reason is no marker, whatever else it holds |
| Marker.StatusIsRead | src/openclaw-flush-plan-lifecycle.ts:182-224 | a marker without a status counts as processed, a known status is read as written, and any other status makes the marker void |
| Marker.MarkerPrefixIsContent | src/openclaw-flush-plan-lifecycle.ts:1070-1094 | a marker written for a text finds exactly that text at the start of any file that begins with it |
| Marker.MarkerPrefixExactly | src/openclaw-flush-plan-lifecycle.ts:1070-1094 | any marker stands for the text with its hash exactly in files that start with that text, if it tells the length of the text or holds the text |
| Marker.SplitContentByMarkerChunks | src/openclaw-flush-plan-lifecycle.ts:1096-1117 | the splitting loop cuts the content at the recorded byte lengths or fails |
| Marker.SplitConserves | src/openclaw-flush-plan-lifecycle.ts:1096-1117 | the parts a split returns concatenate to the content they were cut from |
| Marker.SplitSpelledText | src/openclaw-flush-plan-lifecycle.ts:1096-1117 | splitting a text at the lengths of the raw texts that spell it returns those raw texts |
| Marker.ReplayCovers | src/openclaw-flush-plan-lifecycle.ts:1119-1147 | the turns replayed from a pending marker account for all of its content |
| Marker.ReplayIsExact | src/openclaw-flush-plan-lifecycle.ts:893-977 | writing, validating and replaying a marker rebuilds the turns of the first attempt if and only if no chunk was dropped and the turn limit is between 1 and 2^53 - 1 |
| Marker.DroppedChunkIsNotReplayed | src/openclaw-flush-plan-lifecycle.ts:893-977 | a text whose chunks do not spell it: its marker is read back, and gives no turns |
| Marker.CrashReplayIsOneImport | src/openclaw-flush-plan-lifecycle.ts:1300-1378 | after a crash at any turn and a restart the ingestor ends as after one uninterrupted import, under any turn limit if the chunks were recorded and under the same limit if a chunk was dropped |
| PlanDirectory.ReconcileIsIdempotent | src/openclaw-flush-plan-lifecycle.ts:364-371 | the reconciled text starts with the preserved text, ends with the existing text, and reconciling it again changes nothing |
| PlanDirectory.ReconcileRestoresExactly | src/openclaw-flush-plan-lifecycle.ts:364-371 | the preserved text is put in front exactly when the file does not already start with it |
| PlanDirectory.RestoreAndAppendCommute | src/openclaw-flush-plan-lifecycle.ts:364-371 | restoring and appending commute if and only if the append does not complete a copy of the preserved text |
| PlanDirectory.PlanFile.ReconcileReplacement | src/openclaw-flush-plan-lifecycle.ts:391-455 | for any appends between its operations the routine leaves exactly the earlier text and the appends up to its last read, reconciled with the preserved text |
| PlanDirectory.PlanFile.ReconcileLatest | src/openclaw-flush-plan-lifecycle.ts:422-454 | the part after the first read, with the same promise for the appends that come after that read |
| PlanDirectory.FlushPlanDirectory.RecoverInterruptedCleanupSnapshots | src/openclaw-flush-plan-lifecycle.ts:526-629 | the loop leaves the directory of the recursive specification and reports whether it used up the marker |
| PlanDirectory.RecoveryKeepsOrder | src/openclaw-flush-plan-lifecycle.ts:545-628 | whatever the marker, recovery yields oldest through newest and then the file, less the marker's text at the front of the newest snapshot that begins with it, if and only if no part put back is repeated verbatim by what follows it |
| PlanDirectory.RecoveryRestarts | src/openclaw-flush-plan-lifecycle.ts:545-628 | whatever the marker, stopping after any snapshot, or between a restore and its unlink, and running again reaches the same directory |
| PlanDirectory.MarkerIsUsedUp | src/openclaw-flush-plan-lifecycle.ts:580-609 | recovery removes the marker exactly when some snapshot begins with its text |
| PlanDirectory.RestartAfterUnlink | src/openclaw-flush-plan-lifecycle.ts:594-609 | stopping between the unlink and the removal of the marker, and running again, reaches the same files if and only if no older snapshot begins with the marker's text |
| PlanDirectory.MarkerIsUsedTwice | src/openclaw-flush-plan-lifecycle.ts:580-609 | two snapshots that begin with the marker's text, for which it does not |
| ProtocolSafety.WrittenMarkerReadsBack | src/openclaw-flush-plan-lifecycle.ts:294-333 | a marker this code writes for usable turns is read back unchanged |
| ProtocolSafety.AppendIsCountedExactly | src/openclaw-flush-plan-lifecycle.ts:1149-1259 | an append leaves the account of text in order if and only if it does not complete a copy of a tail that is still missing |
| ProtocolSafety.UnlinkRetires | src/openclaw-flush-plan-lifecycle.ts:1149-1259 | unlinking a snapshot whose tail is back retires exactly the content of the processed marker |
| ProtocolSafety.AdvanceKeepsInv | src/openclaw-flush-plan-lifecycle.ts:1407-1533 | every operation of a run keeps the invariant, and retires imported text only when it unlinks a snapshot |
| ProtocolSafety.StepKeepsInv | src/openclaw-flush-plan-lifecycle.ts:1407-1533 | every run step, append and crash keeps the protocol invariant |
| ProtocolSafety.RunKeepsInv | src/openclaw-flush-plan-lifecycle.ts:1407-1533 | the invariant holds in every reachable state |
| ProtocolSafety.NoTextIsLost | src/openclaw-flush-plan-lifecycle.ts:1149-1533 | in every reachable state all text ever appended is the imported and retired text followed by the text the disk still holds |
| ProtocolSafety.OwedTextFollowsImported | src/openclaw-flush-plan-lifecycle.ts:1149-1533 | in every reachable state all text ever appended is imported text, including what a processed marker covers, followed by the text that is still owed an import |
| ProtocolSafety.SnapshotHasProcessedMarker | src/openclaw-flush-plan-lifecycle.ts:580-609 | in every reachable state a cleanup snapshot is alone and comes with a processed marker whose imported content is a prefix of it |
| ProtocolSafety.RetirementFollowsIngestion | src/openclaw-flush-plan-lifecycle.ts:1483-1532 | over every run, text leaves the disk only in the step that unlinks a snapshot, and then exactly the imported text its processed marker covers |
| ProtocolWriter.TailIsNotRepeated | src/openclaw-flush-plan-lifecycle.ts:364-371 | if no entry begins like a part at the end of an earlier one, no end of the entries so far is a prefix of the entries that follow |
| ProtocolWriter.AppendKeepsWriter | src/openclaw-flush-plan-lifecycle.ts:364-371 | such an entry never completes a copy of a missing tail, and the plan file goes on holding whole entries |
| ProtocolWriter.RecognisableEntriesSuffice | src/openclaw-flush-plan-lifecycle.ts:1149-1533 | over every run, entries of this form meet the condition on appends at every step, so all results about runs hold for them |
| ProtocolWriter.PrefixFreeIsNotEnough | src/openclaw-flush-plan-lifecycle.ts:784-819 | a run from the start, without appends, that stops inside an entry; an entry that is no extension of it then completes its rest, and the account of text breaks |
| ProtocolStore.WrittenMarkerGivesBack | src/openclaw-flush-plan-lifecycle.ts:915-977 | turns rebuilt from a marker written for turns that carry their own fingerprints carry their own fingerprints |
| ProtocolStore.StepTells | src/openclaw-flush-plan-lifecycle.ts:1300-1378 | every step keeps it that the turns being imported, and those a pending marker gives back, carry their own fingerprints |
| ProtocolStore.ImportedIsTheStore | src/openclaw-flush-plan-lifecycle.ts:1300-1378 | over every run, crashes and replays included, the texts counted as imported are exactly those whose fingerprints the ingestor holds |
| ProtocolReplay.ImportHasItsMarker | src/openclaw-flush-plan-lifecycle.ts:1484-1493 | in every reachable state in which an import is under way the disk holds a pending marker for its text, time and reason; its recorded chunks give the turns back, or else the turns are those of a first attempt |
| ProtocolReplay.ReplayGivesJobBackExactly | src/openclaw-flush-plan-lifecycle.ts:1096-1147 | the marker's replay is the import under way if and only if the chunks were recorded under limits a marker can hold, or were not recorded and the limit is still the same |
| ProtocolReplay.CrashComesBackExactly | src/openclaw-flush-plan-lifecycle.ts:1300-1378 | from every reachable import a crash and the next run come back to the beginning of the same import if and only if the plan file still means something and the replay gives the turns back |
| ProtocolReplay.InterruptedImportIsOneImport | src/openclaw-flush-plan-lifecycle.ts:1300-1378 | over every run, an import interrupted any number of times by crashes, failing batches and appends ends, once a run is left alone, with the ingestor as after one uninterrupted import |
| ProtocolReplay.HiddenPlanIsDropped | src/openclaw-flush-plan-lifecycle.ts:1433-1442 | from every reachable import, if an append leaves no line that means anything, the run after a crash drops the marker and imports nothing |
| ProtocolReplay.CommentHidesThePlan | src/openclaw-flush-plan-lifecycle.ts:345-352 | an append can do that: a meaningful file whose continuation makes it a comment |
| ProtocolProgress.RunFinishes | src/openclaw-flush-plan-lifecycle.ts:1407-1533 | from any state a crash can leave, one undisturbed run ends with neither snapshot nor marker |
| ProtocolProgress.UndisturbedRunsImportEverything | src/openclaw-flush-plan-lifecycle.ts:1407-1533 | undisturbed runs end with all meaningful text imported and nothing left to clean up |
| ProtocolProgress.RecoveryStepsAreTheLoop | src/openclaw-flush-plan-lifecycle.ts:526-629 | a run's recovery steps, whatever is on disk, end in the directory and with the marker that the recovery loop leaves |
| ProtocolOutcome.ImportLeaves | src/openclaw-flush-plan-lifecycle.ts:821-891 | when an import ends, at its last turn or at a batch that fails plainly, the text its finished turns deal with has left the front of the plan file, or after a metadata failure is marked as processed; a failing first turn changes nothing on disk |
| ProtocolOutcome.ProcessedTextIsOnlyRemoved | src/openclaw-flush-plan-lifecycle.ts:1274-1298 | the run after takes text marked as processed off the file, and the marker with it, and hands the ingestor nothing |
| ServiceLifecycle.StepKeeps | src/index.ts:5200-5692 | every step between two awaits of any start or stop keeps the slot, claim and count invariants |
| ServiceLifecycle.OneInitialisation | src/index.ts:5200-5461 | at most one initialisation of a service is in flight |
| ServiceLifecycle.OnlyOwnerClearsSlot | src/index.ts:5430-5461 | the in-flight slot is cleared only by the call that holds it, after it has settled |
| ServiceLifecycle.StartedByUnwithdrawnOwner | src/index.ts:5256-5430 | the started flag is set only by the owner of the slot whose own claim no stop has withdrawn |
| ServiceLifecycle.CountCoversClaims | src/index.ts:5467-5502 | the active count is at least the claims plus the decrements still owed, so the clamp at zero never fires |
| ServiceLifecycle.GuardClearedWhenUnclaimed | src/index.ts:5545-5557 | the command guard is cleared only when no registry holds a claim and no decrement is owed |
| ServiceLifecycle.StartedExactly | src/index.ts:5385-5683 | after any step a service is started if and only if the step finished its initialisation with the claim standing, or it was started and the step neither tore it down without a takeover nor threw initialising it |
| ServiceLifecycle.StartTakesEffect | src/index.ts:5200-5461 | a start left alone initialises the service and leaves it started, claimed and counted, with the slot empty |
| ServiceLifecycle.FailedStartIsUndone | src/index.ts:5410-5461 | a start whose initialisation throws leaves flag, claim, count and slot as they were |
| ServiceLifecycle.StopTakesEffect | src/index.ts:5462-5692 | a stop left alone leaves the service not started, gives claim and count back and clears the command guard with the last count |
| ServiceLifecycle.StopAllowsRestart | src/index.ts:5200-5692 | from every reachable host, starting, stopping and starting again, each left alone, has its effect each time |
| ServiceLifecycle.InterruptedStartIsUndone | src/index.ts:5504-5683 | a stop during its own registry's initialisation leaves the service as before the start |
| ServiceLifecycle.WaitingStartTakesOver | src/index.ts:5216-5256 | a start that meets another in flight waits; it has nothing to do if the first succeeds and initialises the service itself if the first throws |
| ServiceLifecycle.InterruptingStopSparesTakeover | src/index.ts:5504-5683 | a stop that interrupted an initialisation leaves the service alone when another start has taken it over |
| ServiceLifecycle.FullStopSparesTakeover | src/index.ts:5504-5557 | so does a full stop during whose wait another registry has begun to initialise the service; it gives its count back |
| PromiseChain.StepKeeps | src/index.ts:1754-1857 | queueing, beginning, settling, cleaning up and stopping keep the chains in order |
| PromiseChain.RunsAreSerial | src/index.ts:1833-1857 | runs of one key in one map begin in queue order and never overlap |
| PromiseChain.EntryRemovedByLastRun | src/index.ts:1833-1857 | a map entry is removed only by the last run queued for its key, when all runs of the key have settled |
| PromiseChain.CleanUpRemovesOwnEntry | src/index.ts:1848-1857 | over every run, cleaning up after a settled run removes its key's entry if and only if that entry is its own, and no other |
| PromiseChain.ChainsDrain | src/index.ts:1833-1857 | from every reachable host all queued runs can take their turns without a further call, and every map is then empty |
| PromiseChain.StopLeavesNoRunBehind | src/index.ts:5661-5665 | a stop that drops the published map leaves no run of it unsettled or still to be cleaned up if and only if that map is empty, which is sure when it is the stopper's own |
| PromiseChain.StopDropsBusyMap | src/index.ts:5661-5665 | a run of the host in which a stop drops the published map while a run queued in it is running |
| PromiseChain.DroppedMapLetsRunsOverlap | src/index.ts:1724-1732 | for any key, a run of the host from the start in which a kept old map and a new map run the key at once |
| PromiseChain.OverlapNeedsTwoMaps | src/index.ts:1724-1732 | from any reachable host, without a further registration, one key can come to be run twice at once if and only if two maps have been made |
| PromiseChain.FlushPlanChains.RegisterPlugin | src/index.ts:1724-1732 | a registration adopts the published map or publishes its own |
| PromiseChain.FlushPlanChains.QueueProcessing | src/index.ts:1833-1857 | a queued run waits for the previous entry of its key and becomes the entry |
| PromiseChain.FlushPlanChains.BeginRun | src/index.ts:1833-1857 | a run begins only when no other run of its key and map is running |
| PromiseChain.FlushPlanChains.SettleRun | src/index.ts:1833-1857 | a settled run removes the entry if the entry is still its own |
| PromiseChain.FlushPlanChains.StopService | src/index.ts:5661-5665 | a stop drops the published map exactly when its own map is empty, and leaves runs of the dropped map behind exactly when that one is not |
| CodexIndex.RememberKeeps | src/index.ts:2343-2402 | remembering a thread keeps session-to-key map and reverse index inverse |
| CodexIndex.ForgetKeeps | src/index.ts:2403-2439 | forgetting a thread keeps them inverse, whatever thread the caller names |
| CodexIndex.ClearKeeps | src/index.ts:2440-2490 | clearing caches keeps them inverse for every combination of options |
| CodexIndex.IndexIsInverse | src/index.ts:2284-2490 | after any operations a session is filed under a key exactly when the key is the session's, and no key has an empty set |
| CodexIndex.RememberBinds | src/index.ts:2343-2402 | a session bound to a thread has that thread and the thread's key, unless that is empty, and no other session changes |
| CodexIndex.RememberCounts | src/index.ts:2365-2374 | the old key's message count goes exactly when the binding changes and nobody else used the key |
| CodexIndex.ForgetUnbinds | src/index.ts:2403-2439 | a forgotten session has neither thread nor key, its key's count goes exactly when nobody else uses the key, and no other session changes |
| CodexIndex.ClearUnbinds | src/index.ts:2440-2490 | clearing drops the binding unless it is to be kept, and the count exactly when neither is to be kept and nobody else uses the key |
| CodexIndex.CodexBindings.RemoveSessionFromIndex | src/index.ts:2294-2308 | a session leaves the key's set, an emptied set leaves the index, and the result says which |
| CodexIndex.CodexBindings.RememberThread | src/index.ts:2343-2402 | the maps after remembering are those of the specification, and still inverse |
| CodexIndex.CodexBindings.ForgetThread | src/index.ts:2403-2439 | the maps after forgetting are those of the specification, and still inverse |
| CodexIndex.CodexBindings.ClearCaches | src/index.ts:2440-2490 | the maps after clearing are those of the specification, and still inverse |
| BoundedDedupe.RememberStaysExact | src/index.ts:2139-2151 | after one more key the set is its queue if and only if the key pushed out, if any, is not the empty string |
| BoundedDedupe.EmptyKeyIsStuck | src/index.ts:2139-2151 | an empty key that has been pushed off the queue stays in the set for good |
| BoundedDedupe.ConsumeStaysExact | src/index.ts:2210-2220 | consuming a fingerprint takes it out of set and queue and nothing else |
| BoundedDedupe.FingerprintSetIsItsQueue | src/index.ts:2159-2220 | after any calls a fingerprint set is its duplicate-free queue of at most 1024 |
| BoundedDedupe.QueueIsLatestArrivals | src/index.ts:2139-2151 | the queue is always the end of the list of keys as they first arrived, 1024 of them once there are so many |
| BoundedDedupe.MessageSetIsItsQueue | src/index.ts:2139-2157 | without empty keys the message set is exactly the latest arrivals |
| BoundedDedupe.ObservedReplySurvives | src/index.ts:2222-2239 | filing any replies never drops the reply of a message that is still remembered |
| BoundedDedupe.MemoryIsClean | src/index.ts:2139-2239 | after any calls without empty keys the message set is its queue and every reply is queued or its message remembered |
| BoundedDedupe.ReplyMapIsBounded | src/index.ts:2139-2239 | after any calls the reply map holds at most 2048 entries, or 2049 if a call named the empty key |
| BoundedDedupe.RememberingKeepsTheOthers | src/index.ts:2139-2151 | remembering a key adds it and drops, with its reply, at most the oldest of a full queue; every other key and reply stays |
| BoundedDedupe.ConsumeKeepsOrder | src/index.ts:2210-2220 | consuming a fingerprint takes out that one and leaves the order of the others |
| BoundedDedupe.FilingKeepsTheOthers | src/index.ts:2222-2239 | filing a reply gives it to each key, keeps the latest 1024 of the queue and drops exactly the replies the queue gives up whose messages are not remembered |
| BoundedDedupe.FingerprintSet.Remember | src/index.ts:2159-2174 | the eviction loop leaves the set of the specification, still equal to its queue |
| BoundedDedupe.FingerprintSet.Consume | src/index.ts:2210-2220 | the result says whether the fingerprint was there, and it no longer is |
| BoundedDedupe.InboundMemory.RememberId | src/index.ts:2139-2151 | a message key is remembered, and the key pushed out loses its reply |
| BoundedDedupe.InboundMemory.RememberKeys | src/index.ts:2153-2157 | all keys are remembered in turn |
| BoundedDedupe.InboundMemory.RememberReplies | src/index.ts:2222-2239 | replies are filed under all keys, and old ones dropped unless their message is remembered |
| FaissCommit.SuccessReplacesEverything | scripts/faiss_index.py:254-266 | a commit succeeds exactly when no swap and no deletion fails, and then every target is new and no backup or temporary remains |
| FaissCommit.FailedSwapChangesNothing | scripts/faiss_index.py:254-276 | when a swap fails and roll-back works, every artifact has its old content or old absence and no backup remains |
| FaissCommit.RestoredUnlessItsOwnCallsFail | scripts/faiss_index.py:267-276 | with failing roll-back calls too, an artifact is restored if and only if it was never moved or none of its own calls fails |
| FaissCommit.FailedDeletionLosesEarlierArtifacts | scripts/faiss_index.py:261-276 | a backup that cannot be deleted loses the artifacts before it that had an old file, and restores the others |
| FaissCommit.OldContentOutlivesFailure | scripts/faiss_index.py:251-282 | whatever else fails, a failed commit leaves an artifact's old content as its target or in its backup, unless every swap had succeeded and its backup was deleted before the one that could not be |
| FaissCommit.NewArtifactAfterFailure | scripts/faiss_index.py:267-276 | an artifact with no old file ends without one, unless its new content could not be removed |
| FaissCommit.AllOrNothing | scripts/faiss_index.py:251-282 | with a working roll-back the commit is all or nothing if and only if no artifact with an old file precedes the first backup that cannot be deleted |
| FaissCommit.FileSystem.SwapAll | scripts/faiss_index.py:253-260 | the swap loop stops at the first failing rename, with the artifacts before it swapped and recorded |
| FaissCommit.FileSystem.DropBackups | scripts/faiss_index.py:261-266 | the deletion loop stops at the first backup that cannot be deleted |
| FaissCommit.FileSystem.RollBack | scripts/faiss_index.py:267-275 | roll-back undoes each recorded artifact, whatever happens to the others |
| FaissCommit.FileSystem.CleanTemps | scripts/faiss_index.py:277-282 | the temporaries are unlinked, missing ones passed over |
| FaissCommit.FileSystem.CommitIndexArtifacts | scripts/faiss_index.py:251-282 | the commit for any set of failing calls: its verdict, every artifact's files, and nothing else touched |
| FaissMerge.PruneMetadataRows | scripts/faiss_index.py:458-466 | pruning keeps exactly the rows without a time or not before the cutoff, in order |
| FaissMerge.MergeRows | scripts/faiss_index.py:469-479 | the dictionary and order loops return the merge of the specification |
| FaissMerge.MergeKeepsLatest | scripts/faiss_index.py:469-479 | merged rows stand in the existing order and then first-seen order, each the last row given for its key |
| FaissMerge.MergeKeepsKeysDistinct | scripts/faiss_index.py:469-479 | merged keys are distinct if and only if the existing ones were |
| FaissMerge.MergeInBatches | scripts/faiss_index.py:469-479 | merging u and then v is merging u followed by v in one batch |
| FaissMerge.MergeIsIdempotent | scripts/faiss_index.py:469-479 | merging the same batch again changes nothing |
| FaissMerge.UpsertInBatches | scripts/faiss_index.py:634-686 | two upserts are one upsert of both batches if and only if the rows the second cutoff drops stand last and the second batch names their keys first, in their order, among its new keys |
| FaissMerge.NothingDropped | scripts/faiss_index.py:634-686 | that is so when the second cutoff retains all that the first upsert left |
| FaissMerge.UpsertLeavesLatest | scripts/faiss_index.py:634-686 | after an upsert every key of the chunks holds the last chunk given for it, the rows within the cutoff keep their places, new keys follow in first-seen order, and nothing else is there |
| FaissMerge.UnnamedRowsStay | scripts/faiss_index.py:469-479 | rows kept whose key no chunk names are all still there if and only if none of them is superseded by a later one with its key |
| FaissLocks.StepKeepsLocks | scripts/faiss_index.py:575-627 | every step keeps it that a live process holds a lock exactly while it is inside that lock's protected region |
| FaissLocks.StepKeepsLog | scripts/faiss_index.py:634-726 | every step keeps it that the log holds the successful writers' commands, each once |
| FaissLocks.StepKeepsStore | scripts/faiss_index.py:634-765 | every step keeps the artifacts, the rows in preparation and the answers given in agreement with the log |
| FaissLocks.LocksExclude | scripts/faiss_index.py:575-627 | two live processes are never both inside the writer lock, nor both inside the index lock |
| FaissLocks.WritersAreSerialisable | scripts/faiss_index.py:634-726 | outside a commit and after no torn one, the artifacts are one triple made by running the successful writers' commands in commit order |
| FaissLocks.SearchesSeeOneCommit | scripts/faiss_index.py:729-765 | a search that ends while no torn commit lies on disk finds equal counts and the rows of the writes committed so far |
| FaissLocks.CommitsLeaveTheirRows | scripts/faiss_index.py:634-765 | over every run there is one history in which each write leaves its rows after those of the write before it; the artifacts are its last entry, and a sound search answers the entry that was last when it ended |
| FaissLocks.UndisturbedWriteIsSearched | scripts/faiss_index.py:575-765 | a write begun while no lock is held, and left alone, commits what it makes of the rows on disk, and a search right after it answers just that |
| FaissLocks.SearchAcceptsMatchingCounts | scripts/faiss_index.py:379-389 | a search answers with the metadata rows exactly when all three artifacts exist and their counts agree |
| FaissLocks.TornCommitIsAcceptedOnEqualCounts | scripts/faiss_index.py:379-389 | artifacts of two commits left by a death are accepted if and only if none is missing and both commits have equally many rows |
| FaissLocks.TornCommitIsSearched | scripts/faiss_index.py:251-282 | a run from the start, for any rows and any point between the swaps, that tears a commit; its search answers if and only if the death fell between two artifacts and the counts agree, and then from two commits |
| SearchRefill.ResultLimit | src/tools.ts:84-90 | the limit lies in 1..50 and is the nearest such number to a whole request |
| SearchRefill.Search | src/tools.ts:330-370 | the refill loop ends after at most thirteen searches and returns the first visible candidates among the first 25,000 |
| SearchRefill.PrefixDecides | src/tools.ts:349-370 | a prefix with enough visible candidates, or reaching the cap or the end of the ranking, decides the answer |
| SearchRefill.CapIsHarmless | src/tools.ts:92-92 | the cap leaves the answer that of the whole ranking if and only if enough candidates are visible before it or none after it |
| IdentityAnchor.ParseMarkdownSections | src/tools.ts:153-191 | the line loop returns the parse of the specification |
| IdentityAnchor.PrintIsRender | src/tools.ts:229-240 | on a normal document, joining, collapsing newlines and trimming give the document's lines as they should stand in the file |
| IdentityAnchor.ParseOfRender | src/tools.ts:153-191 | those lines are parsed back to the document |
| IdentityAnchor.ParseOfPrint | src/tools.ts:153-241 | printing and parsing are inverse on normal documents |
| IdentityAnchor.CombinedIncludesBoth | src/tools.ts:193-201 | a merged section contains both the kept text and the incoming text |
| IdentityAnchor.MergeSectionTwice | src/tools.ts:193-201 | the same incoming text merged twice into any section is merged once |
| IdentityAnchor.MergeIdentityAnchor | src/tools.ts:203-241 | the merge loops return the merged file of the specification |
| IdentityAnchor.MergeIsNormal | src/tools.ts:203-241 | merging well-formed updates into a normal document gives a normal document with a header |
| IdentityAnchor.MergedReadsBack | src/tools.ts:203-241 | the merged file is parsed back to the merged document |
| IdentityAnchor.EmptyAnchorIsNormal | src/tools.ts:153-191 | a missing or empty anchor is in normal form |
| AnchorForm.ParsesToNormalExactly | src/tools.ts:153-191 | a file parses to a normal document if and only if none of its headings is nameless and its lines under each heading, trimmed, have no three newlines in a row and do not begin with a heading |
| AnchorForm.ParseFilesByHeading | src/tools.ts:153-191 | for every file there is a section for each name a heading gives, holding the lines whose nearest heading above has that name, and the header holds the others |
| AnchorForm.ParseKeepsHeadingOrder | src/tools.ts:153-191 | sections stand, each once, in the order in which the file first names them |
| IdentityAnchor.MergeTwiceIsOnce | src/tools.ts:203-241 | the same update applied twice gives the same file as once |
| IdentityAnchor.MergeLosesNothing | src/tools.ts:203-241 | every earlier body but the placeholder, and every update, is contained in its section as read back, and other sections are unchanged |
| IdentityAnchor.MergeKeepsForm | src/tools.ts:203-241 | a merge keeps the header, or puts the title for a missing one, and places the four standard sections first and then the other earlier sections, each once, in their order |
| IdentityAnchor.PlaceholderGivesWay | src/tools.ts:193-228 | a standard section that is missing or holds only the placeholder becomes the update, or is left empty |
| IdentityAnchor.CombinedAddsNothing | src/tools.ts:193-201 | a merged section is one of the two texts, or the earlier one, a blank line and the later one |
| LiveGraph.NodeAddedKeeps | admin-console/public/app.js:1661-1715 | a new node is added once, and exactly the queued edges it completes are drawn and leave the queue |
| LiveGraph.EdgeAddedKeeps | admin-console/public/app.js:1728-1772 | an edge is drawn once if its nodes are there, and queued once otherwise, pushing out the oldest of 200 |
| LiveGraph.EdgeRemovedKeeps | admin-console/public/app.js:1785-1817 | removal takes the edge and exactly the nodes it leaves without edges, and no entry of the queue |
| LiveGraph.NodeAddedWrites | admin-console/public/app.js:1661-1715 | a new node is appended, drawn edges stay as they are, each edge drawn after them is as the queue offered it, and the other offers keep their order |
| LiveGraph.NodeUpdatedWrites | admin-console/public/app.js:1717-1726 | a node update writes the fields that are given and not empty to the node of that id, and nothing else |
| LiveGraph.EdgeAddedWrites | admin-console/public/app.js:1728-1772 | a new edge is appended as offered, or its offer to the queue, and only the oldest of 200 offers gives way |
| LiveGraph.EdgeUpdatedWrites | admin-console/public/app.js:1774-1783 | an edge update writes the numbers that are given to the edge of that key, and nothing else |
| LiveGraph.EdgeRemovedWrites | admin-console/public/app.js:1785-1817 | the other edges, and the nodes that have an edge left or never had one, stay as they are, in their order |
| LiveGraph.RunKeeps | admin-console/public/app.js:1657-1817 | after any events ids and edge triples are unique, endpoints resolved, and the queue bounded and without drawable edges |
| LiveGraph.AdditionsAddUp | admin-console/public/app.js:1657-1772 | additions that never overflow amount to all ids and all edges, drawn if both nodes have come and queued otherwise |
| LiveGraph.OrderDoesNotMatter | admin-console/public/app.js:1657-1772 | two streams of the same additions that never overflow end in the same nodes, edges and queue |
| LiveGraph.FewEdgesNeverOverflow | admin-console/public/app.js:1630-1631 | streams naming at most 200 different edges never overflow |
| LiveGraph.NodeAndEdgeCommuteUnlessOverflow | admin-console/public/app.js:1657-1772 | a node and an edge may arrive in either order if and only if the edge does not push out an edge the node would have completed |
| LiveGraph.RemovalMissesTheQueue | admin-console/public/app.js:1785-1817 | removing a queued edge changes nothing |
| LiveGraph.RemovedOrphanReturns | admin-console/public/app.js:1785-1817 | after a removal and a new node the removed edge is drawn if and only if it was queued and the node was the one missing |
| LiveGraph.LoadEstablishesInvariant | admin-console/public/app.js:1519-1540 | loading establishes the invariant if and only if the snapshot repeats no node and no edge and names no empty endpoint without a nameless node |
| LiveGraph.LoadKeepsSnapshot | admin-console/public/app.js:1519-1540 | loading takes nodes and edges as they are, empties the queue and adds one node, called by its id, for each endpoint that is not empty and has none |
| LiveGraph.GraphView.Load | admin-console/public/app.js:1519-1540 | the completion loop appends one synthetic node per missing endpoint and empties the queue |
| LiveGraph.GraphView.DrainQueue | admin-console/public/app.js:1686-1710 | the backward loop draws and removes every entry that is complete |
| LiveGraph.GraphView.UpdateEdges | admin-console/public/app.js:1774-1783 | the loop reweighs the edges of one key and leaves the others |
| LiveGraph.GraphView.RemoveEdge | admin-console/public/app.js:1785-1817 | the backward loops leave the graph of the specification |
| LiveGraph.GraphView.Apply | admin-console/public/app.js:1657-1817 | each event leaves the graph of the specification, with the invariant kept |

## Left out

- FaissLocks.WritersAreSerialisable: promises the triple only outside a commit under way and while no torn commit lies on disk, because a process that dies between swaps, or fails to delete a backup, does leave another state; a completed rebuild ends that.
- Chunking.SettledTurnsFit: asks for retries that settle, because turns can exceed the limit when they do not (`ChunkSettling.UnsettledTurnsOverflow`).
- ChunkSettling.TidyPlansSettle: a sufficient condition that a caller can check; between 256 characters and 302 plus twice the digits of the text's length, and for blank pieces, the retries may settle or not.
- ProtocolOutcome.ImportLeaves: asks that the turns spell the trimmed text, as recorded chunks do; where a piece was dropped the cut may not be found, and `SerialIngest.CutIsCovered` says what any cut consists of.
- IdentityAnchor.MergeTwiceIsOnce: asks for existing text that parses to a normal document (`AnchorForm.ParsesToNormalExactly` says which does) and for updates without heading lines, carriage returns or three newlines in a row, because such lines move text between sections when the file is read back.
- Path safety (`realpath`, symbolic links, paths that escape the workspace) and the type checks on files; only regular files inside the workspace are modelled.
- The window between the last read and the overwrite in the reconcile routine, and writers that hold an open descriptor across the rename.
- The real ingestor, LLM calls, QMD, the orchestrator and everything under `@remnic/core`.
- The comparator that sorts snapshot names, clock and reason texts, temporary marker files, deferral files, and the byte counts and status texts in results.
- The text syntax of JSON: markers go through a tree of fields, and unknown fields are not modelled.
- The wording of chunk wrappers: only their lengths matter to the chunker.
- Text outside the Basic Multilingual Plane, unpaired surrogates and replacement characters in byte cuts.
- The forward index `codexSessionsByThread` and the prompt-cache maps, which the buffer-key index does not depend on.
- Whether a stop that is still tearing down can reset a registry that has started meanwhile: a stop decides about a takeover before its tear-down begins (`ServiceLifecycle.InterruptingStopSparesTakeover`, `ServiceLifecycle.FullStopSparesTakeover`), and what comes later is not followed.
- What `start` does between claiming the slot and settling, beyond its abort checks, completion and failure.
- FAISS and numpy arithmetic, embeddings, manifest fields other than the count, timestamp parsing, line splitting of the metadata file, and process probing.
- Lock waiting times: a time-out is an error that may strike at any step.
- The health and inspect commands of the sidecar, which only read.
- Ranking and formatting of search results, and the private-visibility cache.
- Canvas drawing, force simulation, node positions and colours, rendering, fetching and event-source handling; snapshot endpoints that are not strings.
- Hook logging, recall rendering, configuration parsing, cron builders, tool schemas, command-line parsing, benchmark, migration and model-lab scripts.
