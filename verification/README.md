# A verified model of the raw lake and its readers

This project models the ingestion core of a market-data warehouse and proves what that core is for.
Provider records pass a contract, are compared with what the lake retains, are staged and renamed into
monthly partitions, read back, reconciled, and recorded in a manifest; incremental runs then move a
checkpoint. Compaction rewrites a partition behind a lock with two directory renames. Dataset builds
record files that later compactions archive. A streaming bridge writes micro-batches before it commits
their offsets. Beside the lake stand the query cache, lineage closures, point-in-time ranges, the
staging query for prices and the robust statistics of the quality check.

## How the model is built

- The disk is a value (`Backfill.Disk`): partition directories, staged files, quarantine files, audits,
  manifests, checkpoints, locks, archives. Every rename, file creation or read is one step of a run
  (`Backfill.Step`) or of a compaction (`Compaction.Steps`, `Compaction.Raises`). A crash is stopping
  between two steps; an interleaving is any sequence of steps of any number of processes
  (`Warehouse.Next`).
- The code that updates state in place is also written in place and proved against those steps:
  `LakeStore.RawLake` and `Loader` (ingestion), `CompactionRun` (compaction), `Bridge.Consumer`
  (streaming), `Cache.QueryCache`, `Checkpoints.CheckpointStore`. A method's `budget` is the number of
  durable actions before its process dies, so a contract covers every crash point. The two closure loops
  of lineage are one method with a direction.
- What one record becomes, from the provider's values to the stored row, is stated in `Acceptance`; what
  the audits, quarantine files and batch results on disk say, in `Audits`, `Manifests` and `Reports`.
- A canonical record (`Rows.Canon`) holds exactly the cells the loader compares: everything but the
  ingestion time, and the record id unless it is part of the key. `Rows.View` is the key-to-values map.

## What was found

Where a property fails, the code is modelled as it is and the exact condition is proved.

- A fresh run id does not guarantee a fresh quarantine file: the file name replaces characters, so
  `a.b` and `a_b` share one. A retry is stopped if and only if it rejects something under a used file
  name (`Convergence.WhenARetryIsBlocked`, `Convergence.FreshRunIdsCanCollide`).
- Two datasets compare provider times with the ingestion clock, so a later run can accept what an
  earlier one quarantined. `Contracts.ClockMattersExactly` says when two clocks give one record different
  verdicts, `Datasets.MacroIsSteadyExactly` what that means for macro observations. Results about runs at
  several clocks ask that the rules judge each offered record alike at all of them
  (`Contracts.SteadyOn`): every feed of prices (`Contracts.ClockFreeIsSteady`), a backfill of old macro
  releases (`Datasets.OldReleasesAreSteady`). For a feed whose records have different keys, two refreshes
  at two clocks leave the same lake if and only if that is so in their windows
  (`LateReleases.RefreshesAgreeExactly`); a release between the clocks
  makes incremental and full refresh differ (`LateReleases.LateReleaseBreaksTheRefresh`).
- Rolling back a compaction restores the partition if and only if nothing has taken its directory name,
  and a promotion that the lock refuses has already made that directory (`Compaction.RollbackNeedsTheName`).
  There is a history from the empty lake in which the skipped rollback loses records
  (`Hazards.SkippedRollbackLosesRecords`). An action loses records if and only if it releases the lock of
  a partition so abandoned whose records nobody else holds (`Warehouse.ActionLosesNothing`); a history
  without such an action is called clean.
- An exception after the swap and before the compaction record leaves an archive nobody can find. There is
  a history from the empty lake in which a recorded build loses its inputs that way
  (`Hazards.FailedCompactionHidesABuild`), and any recorded file of a partition that can be compacted can
  meet that fate (`Hazards.AnyArtifactCanBecomeUnresolvable`). In every clean history a recorded artifact
  is unresolvable if and only if it is in an archive without a record (`TimeTravel.UnresolvableExactly`).
- Two first runs that overlap can leave days no run fetched (`Coverage.TwoFirstRunsLeaveAGap`;
  `Coverage.NeverAGapExactly` is the exact condition).
- The time to live of a cached answer is measured from a clock sampled before the lock is taken, so a
  caller that waits can be served an older entry. For every time to live and every wait the bound on the
  age is attained (`CacheThreads.WaitingCallersGetStaleEntries`), so all hits are young if and only if
  nobody waits (`CacheThreads.HitsAreYoungExactly`).
- A run that reads the lake back while a partition is parked in the archive does not see it. Two runs can
  then publish different values of one key, dated in different months
  (`Hazards.ParkedPartitionHidesAConflict`). That is the only way: in every clean history two published
  runs agree if and only if they date every key they share in the same month
  (`Agreement.PublishedRunsAgree`). Datasets whose keys contain the event date are never affected
  (`Agreement.MonthlyRunsAgree`, `Loader.PriceRunsFixMonths`), nor is a lake nobody compacts
  (`Agreement.IngestionAgrees`).

## Model

| member | source | states |
|---|---|---|
| Contracts.Validate | ingestion/contracts/base.py:117-201 | a batch is refused exactly when a declared column is absent from all of it; otherwise the accepted rows and the quarantined payloads are the specified ones, and each quarantined record lists exactly its own defects, or the repetition of a key |
| Contracts.NormalizeFields | ingestion/contracts/base.py:162-175 | the column loop reports exactly the nulls in columns that may not be null and the values that do not parse, and otherwise holds every normalized cell |
| Contracts.NormalizedExactly | ingestion/contracts/base.py:157-175 | a record normalizes exactly when its columns are the declared ones and each value is a null in a nullable column or parses; a null stays null and every other cell is the parsed value |
| Contracts.CheckRecord | ingestion/contracts/base.py:147-180 | a record has no defect exactly when it would be accepted alone, and then yields its normalized cells; its defects are exactly the colliding aliases, the column and cell defects, the broken rules, or the wrong source |
| Contracts.EveryRecordIsAccountedFor | ingestion/contracts/base.py:188-201 | accepted and rejected records add up to the batch |
| Contracts.AcceptedRowsAreValid | ingestion/contracts/base.py:177-200 | every accepted row is a valid record of the batch that no earlier valid record shares a key with |
| Contracts.BatchIsSplit | ingestion/contracts/base.py:181-200 | one more record is accepted exactly when it is valid and no valid record before it has its key, and quarantined otherwise, both in the order of the batch |
| Contracts.AcceptedKeysAreDistinct | ingestion/contracts/base.py:181-186 | no two accepted rows share a batch key |
| Contracts.ValidKeysAreAccepted | ingestion/contracts/base.py:181-200 | no valid key is lost: the key of every valid record is carried by an accepted row |
| Contracts.MissingColumnLeavesNothingValid | ingestion/contracts/base.py:130-141 | refusing a batch for an absent column hides no valid record |
| Contracts.RefusedColumns | ingestion/contracts/base.py:130-141 | the columns a batch is refused for are exactly the declared ones that no record has under any of their names; an empty batch is not refused |
| Contracts.CanonIsItsComparedCells | ingestion/loaders/backfill.py:109-112 | key, event date and source add nothing to the comparison: two rows are the same canonical record exactly when their compared cells are equal |
| Contracts.SameRecordExactly | ingestion/loaders/backfill.py:109-112 | two rows are the same record exactly when they are equal in every column except the ingestion time and the record id, and in these too where they are part of the key |
| Contracts.EnrichmentIs | ingestion/loaders/backfill.py:285-288 | an absent source becomes the run's, an absent record id the stable id of the record with its source, an absent ingestion time the run's clock; every given cell stays and no other column appears |
| Contracts.ClockMattersExactly | ingestion/loaders/backfill.py:283-291 | exactly when enrichment at two clocks gives a record the same verdict, and then the same canonical record: the rules judge both readings alike, or the record names another source |
| Contracts.ClockFreeIsSteady | ingestion/loaders/backfill.py:283-291 | a contract whose rules ignore the clock judges every feed alike at any clocks |
| Datasets.PricesIsWellFormed | ingestion/contracts/prices.py:17-36 | the price contract meets every structural assumption the other results make |
| Datasets.PriceKeysFixMonths | ingestion/contracts/prices.py:17-36 | the key of a price determines its partition |
| Datasets.PricesIgnoreTheClock | ingestion/contracts/prices.py:4-14 | no price rule depends on the ingestion time |
| Datasets.MacroVerdictsAgree | ingestion/contracts/macro.py:4-7 | exactly when two clocks give a macro record the same rule verdict: the release time is after both or after neither |
| Datasets.MacroWatchesTheClock | ingestion/contracts/macro.py:4-7 | the macro contract is not clock-free |
| Datasets.MacroIsWellFormed | ingestion/contracts/macro.py:10-28 | the macro contract meets every structural assumption the other results make |
| Datasets.MacroIsSteadyExactly | ingestion/contracts/macro.py:4-7 | exactly when the rules judge a provider record of macro data alike at two clocks: its release lies after both readings of the clock or after neither |
| Datasets.OldReleasesAreSteady | ingestion/contracts/macro.py:4-7 | a feed released before every clock in use, such as a historical backfill, is judged alike at all of them |
| Acceptance.QuotesAreAcceptedExactly | ingestion/contracts/prices.py:4-36 | a bar that parses and comes without lineage columns is accepted exactly when its prices are positive, its volume is not negative and low and high enclose open and close; the row is keyed by symbol, trade date and the run's source and carries the run's clock and the stable id |
| Acceptance.PriceReplays | ingestion/loaders/backfill.py:106-127 | the second of two price rows is a new bar if symbol, date or source differ, a replay if only the clock or the vendor id changed, and a conflict otherwise |
| Acceptance.StatementsAreAcceptedExactly | ingestion/contracts/macro.py:4-28 | a macro observation that parses and comes without lineage columns is accepted exactly when its release is null or not after the clock |
| Acceptance.MacroReplays | ingestion/loaders/backfill.py:106-127 | of macro observations another vendor id is another record, and under one id anything but the clock is a conflict |
| Acceptance.PricesAllowNoNull | ingestion/contracts/prices.py:17-36 | a null in any price column, under any of its names, spoils the record |
| Acceptance.MacroAllowsNullReleasesOnly | ingestion/contracts/macro.py:10-28 | a null in any macro column but the release time spoils the record |
| Acceptance.PricesReadNoFlags | ingestion/contracts/prices.py:17-36 | a flag in a price or volume column, or a blank or a number for a symbol, spoils the record |
| Acceptance.MacroReadsNoFlags | ingestion/contracts/macro.py:10-28 | a flag for a value spoils the observation |
| Acceptance.AliasesAreNames | ingestion/contracts/base.py:147-156 | a record with a column under its declared alias normalizes as under the declared name, in both contracts |
| Dedup.DeduplicateRows | ingestion/loaders/backfill.py:106-127 | the loop over a growing view computes the specified outcome, conflict included |
| Dedup.DeduplicateMeaning | ingestion/loaders/backfill.py:115-127 | a batch is refused exactly when a replayed key changed its values; otherwise exactly the rows with unretained keys are added and the rest are counted as replays |
| Dedup.ConflictNamesTheFirst | ingestion/loaders/backfill.py:118-124 | a refused batch names the key of its first replay with changed values |
| Dedup.UnseenCanons | ingestion/loaders/backfill.py:115-127 | what is added is the batch minus what is retained |
| Dedup.AgreesMeansConsistent | ingestion/loaders/backfill.py:118-126 | deduplication succeeds exactly when lake and batch together have one value tuple a key |
| Dedup.ExistingRows | ingestion/loaders/backfill.py:134-156 | the read-back is the view of all retained records, or fails exactly when two rows of one key differ, in any row order |
| Dedup.ReconcileRun | quality/reconciliation.py:27-56 | passes exactly when both accounting identities and the row delta hold, with the discrepancies in order |
| Dedup.ReconciliationSays | quality/reconciliation.py:27-56 | each discrepancy is reported exactly when its identity fails, in a fixed order, and the figures are the ones compared |
| Backfill.MonthsOfRows | ingestion/loaders/backfill.py:297-304 | the partitions written are exactly the event months of the rows, each once, in calendar order |
| Backfill.InMonthCanons | ingestion/loaders/backfill.py:297-301 | the file of a month holds exactly the records of that month |
| Backfill.MaxDateIsReached | ingestion/loaders/backfill.py:331-334 | the date a run reports is the latest accepted event date |
| Backfill.RunsEnd | ingestion/loaders/backfill.py:282-373 | a run left alone ends within a bound computed from its batch |
| Backfill.ValidRunIdsAre | ingestion/loaders/backfill.py:87 | valid run ids, one character at a time: a letter or digit, then at most 127 more that may be dots, dashes and underscores |
| Backfill.ArtifactsAreImmutable | ingestion/loaders/backfill.py:218-227 | no step of any run, whatever its id, changes or removes a file of the lake |
| Backfill.ReusedRunIdChangesNothing | ingestion/loaders/backfill.py:174-182 | a run whose id already names an artifact of a month it plans to write leaves the lake as it was and fails |
| Convergence.RestOfBatch | ingestion/loaders/backfill.py:294-296 | against a lake that already holds any part of a batch, deduplication adds exactly the other part |
| Convergence.ProgressCanons | ingestion/loaders/backfill.py:303-317 | whatever was interrupted, a reader sees the old records and those of whole promoted months |
| Convergence.RetriesConverge | ingestion/loaders/backfill.py:282-373 | after any series of interrupted attempts at one set of canonical records, beside locks on other months, an attempt left alone succeeds exactly when its quarantine file can be created; success leaves the view of one undisturbed run, old files untouched, every new row in exactly one physical place; failure changes nothing |
| Convergence.SameViewAsUndisturbed | ingestion/loaders/backfill.py:282-373 | the retried and the undisturbed run leave the same key-to-values map |
| Convergence.UndisturbedRun | ingestion/loaders/backfill.py:282-373 | one run alone on a healthy lake always succeeds and reconciles |
| Convergence.OnlyQuarantineStopsARetry | ingestion/loaders/backfill.py:182-183 | at no instant of any history does an attempt meet an existing artifact, a conflict, a lock or a failed reconciliation |
| Convergence.NewRowsAreWrittenOnce | ingestion/loaders/backfill.py:303-317 | every new key has exactly one physical row in the whole lake |
| Convergence.QuarantineNames | ingestion/contracts/base.py:213-217 | a quarantine file exists after a history exactly when it was there or an attempt that got going wrote it |
| Convergence.WhenARetryIsBlocked | ingestion/contracts/base.py:213-217 | the exact condition under which exclusive creation stops a retry |
| Convergence.FreshRunIdsCanCollide | ingestion/contracts/base.py:213-217 | two different valid run ids with one file name |
| Ordering.NewerOrder | ingestion/compaction.py:110-116 | the copy order is a strict weak order |
| Ordering.TextOrderIs | ingestion/compaction.py:110-116 | text comes before another text exactly when it ends or has the smaller character at the first difference |
| Compaction.CompactionKeepsCanons | ingestion/compaction.py:101-117 | a conflict-free partition and its rewrite hold the same canonical records |
| Compaction.RowCountCheckNeverFires | ingestion/compaction.py:126-127 | the rewrite always has one row a key, so the count check cannot fail |
| Compaction.WinnersCompact | ingestion/compaction.py:110-117 | keeping rank one gives one newest copy of every key, and nothing else |
| Compaction.WinnersAreTheLastIngested | ingestion/compaction.py:110-117 | what is kept of every key is its last ingested copy, of those the one with the greatest vendor id |
| Compaction.CompactionIsInvisible | ingestion/compaction.py:94-127 | after a compaction every later batch has the same additions, replays or conflict as without it |
| Compaction.EveryStepKeepsThePartition | ingestion/compaction.py:72-160 | every step and every exception, short of the unlock after a skipped rollback, keeps the records of the partition, in the lake or in the archive its lock points at |
| Compaction.StoppedCompactionIsSafe | ingestion/compaction.py:130-160 | stopped anywhere behind the lock, either all records are visible, or the partition is empty, all its files are archived and the lock is held |
| Compaction.RecordIsTruthful | ingestion/compaction.py:139-151 | the record of a finished compaction gives the files it found and exactly one row a key of the partition that is now in place |
| Compaction.SwapOverwritesNothing | ingestion/compaction.py:134-138 | whatever is in the partition's place when the swap runs stays there |
| Compaction.RollbackNeedsTheName | ingestion/compaction.py:154-160 | the rollback restores the partition if and only if nothing took its name; otherwise the lock is released over an empty partition |
| CompactionRun.RewritePartition | ingestion/compaction.py:94-127 | the rewrite is the protocol's step: conflict or a staged file of winners |
| CompactionRun.SwapPartition | ingestion/compaction.py:128-153 | with an exception at any point, every rename and the record are protocol steps, and the caller learns whether the partition was moved |
| CompactionRun.CompactPartition | ingestion/compaction.py:53-160 | under any single fault the whole call is a sequence of protocol steps that ends with the lock released; on an unlocked lake the visible records are unchanged |
| Warehouse.NextKeepsInv | ingestion/loaders/backfill.py:218-225 | any step of any run or compaction, the one losing unlock aside, keeps what is true of all the others, and loses no record and no manifest |
| Warehouse.ActionLosesNothing | ingestion/compaction.py:154-160 | an action loses no record and no manifest if and only if it is not the unlock after a skipped rollback of records nobody else holds |
| Warehouse.NothingIsLost | ingestion/loaders/backfill.py:294-373 | over every clean interleaving the logical content of the lake and the manifests only grow |
| Hazards.SkippedRollbackLosesRecords | ingestion/compaction.py:154-160 | a history from the empty lake whose last action makes a held record disappear: refused promotion, exception, skipped rollback, unlock |
| Placement.RecordsAreInTheirMonths | ingestion/loaders/backfill.py:297-304 | in every history each record, visible or parked, is in the partition of its own month |
| Placement.HeldRecordsWereAccepted | ingestion/loaders/backfill.py:289-324 | from any state of a clean history in which no run is under way, the lake gains only records that later runs accept |
| Placement.ParkedIsConsistent | ingestion/compaction.py:94-135 | a partition taken out of the lake holds no conflict |
| Manifests.EveryManifestIsTrue | ingestion/loaders/backfill.py:343-372 | in every clean history each manifest on disk gives what its run fetched, added, quarantined, replayed and saw before it, the growth of the lake and one file a month, is degraded exactly when something was quarantined, gives the latest accepted date, and the lake holds every row it counts |
| Audits.EveryAuditIsTrue | quality/reconciliation.py:27-56 | in every clean history every audit on disk gives what its run fetched, quarantined, added and found again and the rows before and after; every run that got a verdict has one, passed exactly if the run could publish |
| Audits.QuarantineIsComplete | ingestion/contracts/base.py:204-220 | in every clean history each quarantine file holds exactly what some run rejected, in order, and a run that goes on after rejecting something finds all of it there |
| Audits.QuarantineIsImmutable | ingestion/contracts/base.py:213-217 | no quarantine file ever changes or disappears |
| Audits.StagingIsEmptied | ingestion/loaders/backfill.py:218-227 | in every clean history the staged files of a run are those of the months between what it staged and what it promoted, and none when it is done |
| Audits.NamesCollideExactly | ingestion/contracts/base.py:213-217 | two valid run ids share a quarantine file name exactly when they differ only in a dot against an underscore |
| Audits.NamesTellSourceAndRun | ingestion/contracts/base.py:208-213 | two batches share a quarantine file exactly when the file-name forms of their sources and of their run ids are equal |
| Agreement.PublishedRunsAgree | ingestion/loaders/backfill.py:294-324 | in every clean history, however runs and compactions were interleaved and stopped, two runs that reached their manifests agree on all keys if and only if they date every key they share in the same month |
| Agreement.MonthlyAgreementHolds | ingestion/loaders/backfill.py:294-324 | in every clean history two runs that have read the lake back never wrote different values of one key in one month |
| Agreement.MonthlyRunsAgree | ingestion/loaders/backfill.py:294-324 | where keys determine months two published runs agree in every clean history |
| Loader.PriceRunsFixMonths | ingestion/contracts/prices.py:17-36 | every run over prices meets that condition |
| Hazards.ParkedPartitionHidesAConflict | ingestion/compaction.py:130-135 | a clean history from the empty lake in which two runs publish different values of one key, because the second read back while the partition of the first was parked |
| Agreement.IngestionAgrees | ingestion/loaders/backfill.py:294-324 | without compaction every history is clean and all runs that passed their second reads agree |
| Agreement.UnparkedRunsAgree | ingestion/loaders/backfill.py:319-324 | where nothing is parked whenever a run passes its second read, all runs that passed agree on keys of different months too |
| Agreement.ReconciliationIsExact | quality/reconciliation.py:32-43 | after its promotions a run reconciles if and only if the lake reads back without a conflict and as many foreign keys appeared as keys it knew are hidden in parked partitions |
| Agreement.NothingParkedNothingHidden | quality/reconciliation.py:32-43 | with nothing parked that means that every key that appeared between the reads is its own |
| Agreement.EveryReconciliationIsExact | ingestion/loaders/backfill.py:319-327 | the same for every run in every clean interleaving |
| Agreement.BooksBalance | quality/reconciliation.py:32-38 | fetched equals accepted plus rejected plus deduplicated at every audit |
| Checkpoints.CheckpointStore.Advance | ingestion/checkpoints/sqlite.py:56-76 | the stored date becomes the later of the two, the run id is always the caller's, no other source changes |
| Checkpoints.AdvanceTwice | ingestion/checkpoints/sqlite.py:56-76 | advancing is idempotent, and the date does not depend on the order of two advances |
| Checkpoints.LatestDateIsWitnessed | ingestion/loaders/incremental.py:108-113 | the date offered to the checkpoint is the event date of a record the lake holds by then |
| Checkpoints.CheckpointsAreSound | ingestion/loaders/incremental.py:108-113 | in every reachable state a checkpoint date is the event date of a held record of its source and its run has a manifest |
| Checkpoints.CheckpointsNeverMoveBack | ingestion/checkpoints/sqlite.py:64-65 | over every history no checkpoint disappears or decreases |
| Checkpoints.CheckpointIsVisible | ingestion/loaders/incremental.py:108-113 | with no partition parked the witness is in the view a reader gets |
| FileHistory.FilesInvHolds | observability/builds.py:84-107 | in every clean history each recorded file is in the lake or in an archive with its recorded rows, and no file name of a partition occurs twice |
| TimeTravel.SourcePartitions | observability/builds.py:84-119 | a build lists every file of the lake exactly once with its content, and is refused exactly on an empty lake |
| TimeTravel.ResolveArtifact | observability/builds.py:65-81 | the search loop answers the recorded path or the first record whose archive has the file |
| TimeTravel.FoundInItsPartition | observability/builds.py:65-81 | a file that left the lake is found only through a listed record of its own partition, in an archive that has it |
| TimeTravel.BuildsResolve | observability/builds.py:65-81 | an artifact resolves if and only if its file is in the lake or in a recorded archive, and then to its recorded rows, in whatever order records are read |
| TimeTravel.TimeTravelSurvivesCompaction | warehouse/time_travel.py:46-68 | over every history whose compactions completed or rolled back, every artifact of every earlier build resolves to its recorded rows |
| TimeTravel.UnresolvableExactly | observability/builds.py:65-81 | over every clean history a recorded artifact cannot be found if and only if it is in an archive whose compaction record is missing, in whatever order records are read |
| Hazards.AnyArtifactCanBecomeUnresolvable | ingestion/compaction.py:130-160 | from any reached state with a partition that can be compacted, an exception between swap and record leads to one in which a recorded file of it is found by no search |
| Hazards.FailedCompactionHidesABuild | ingestion/compaction.py:130-160 | a clean history from the empty lake in which that happens to a recorded build |
| TimeTravel.ReproductionPlan | warehouse/time_travel.py:46-68 | the inputs are ready exactly when every artifact is found unchanged, and the expected rows are the recorded total |
| TimeTravel.VerifyBuild | observability/builds.py:145-169 | every error reported is true and every true one is reported, so there is none exactly when commit, worktree and transformation code are the recorded ones, every artifact resolves to its recorded rows and the id is that of the identity |
| TimeTravel.BuildsVerify | observability/builds.py:145-169 | over every history whose compactions completed or rolled back, a recorded build verifies if and only if the code is the recorded one |
| TimeTravel.AlteredBuildsFail | observability/builds.py:163-168 | a manifest altered anywhere but in its id does not verify |
| TimeTravel.CreateCatalog | warehouse/time_travel.py:71-133 | refused exactly as specified: changed inputs first, then an unreadable or foreign catalog, then an unsafe name; a new one has the recorded counts, so its row-count check never fires |
| TimeTravel.CreatedCatalogsAreSafe | warehouse/time_travel.py:103-121 | a catalog is created only for dataset names of small letters, digits and underscores that begin with a letter |
| TimeTravel.SafeCatalogsAreCreated | warehouse/time_travel.py:103-121 | with unchanged inputs and such names a new catalog is created |
| TimeTravel.CatalogIsReused | warehouse/time_travel.py:80-101 | a created catalog is reused exactly by a build with its id and its row counts, and then gives the counts it was created with |
| TimeTravel.WhyAStoredCatalogIsRefused | warehouse/time_travel.py:80-99 | a stored catalog is invalid exactly when it lacks a view of some dataset, and that of another build exactly when it has them all and its id or a count differs |
| Incremental.EventColumn | ingestion/loaders/incremental.py:25-33 | of an accepted record, the window test reads the very column the contract renames to the event field |
| Incremental.AcceptedDateIsEventDate | ingestion/loaders/incremental.py:25-33 | the window test and the contract date every accepted record alike |
| Incremental.SelectRange | ingestion/loaders/incremental.py:82-92 | the selection is exactly the records dated in the window or without a readable date |
| Incremental.SelectionAppends | ingestion/loaders/incremental.py:82-92 | selecting from a longer feed appends the next record exactly when it has no readable date or one in the windows |
| Incremental.UndatedRecordsAreQuarantined | ingestion/loaders/incremental.py:82-94 | a run counts as fetched exactly the records dated in its windows or without a readable date, and quarantines the latter |
| Incremental.JobForIsOk | ingestion/loaders/backfill.py:289-294 | validation always yields a batch with distinct keys, the run's own source and balanced counts |
| Incremental.AcceptedRowsAreInTheWindow | ingestion/loaders/incremental.py:83-92 | although undated records are passed on, everything accepted is dated in the window |
| Incremental.LatestDateIsInTheWindow | ingestion/loaders/incremental.py:109-113 | so a checkpoint only moves to a date in the run's window |
| Coverage.NoWindowGaps | ingestion/loaders/incremental.py:36-114 | over every clean history of incremental runs, overlapping, killed or beside compactions, every day from the start of the run that created the checkpoint up to the checkpoint lay in the window of a run that succeeded |
| Coverage.WindowedJobIsDated | ingestion/loaders/incremental.py:82-94 | what the histories assume of a batch holds of every validated selection |
| Coverage.CheckpointHasACreator | ingestion/loaders/incremental.py:108-113 | every checkpoint of a history was created by one of its runs |
| Coverage.SequentialRunsAreAlone | ingestion/loaders/incremental.py:76-80 | runs of a source that each start after the earlier ones ended meet the premise of the coverage result |
| Coverage.WhenASuccessLeavesAGap | ingestion/loaders/incremental.py:76-80 | the exact condition for one success: the days between the checkpoint it meets and its window were covered; only a run that read no checkpoint can fail it |
| Coverage.NeverAGapExactly | ingestion/loaders/incremental.py:57-114 | for whole histories: no state has a gap if and only if that holds of every success |
| Coverage.TwoFirstRunsLeaveAGap | ingestion/loaders/incremental.py:76-80 | a history from the empty lake in which two overlapping first runs leave a day that was never fetched |
| Refresh.BatchIsTruthWithin | ingestion/loaders/incremental.py:82-94 | on a conflict-free history a windowed run accepts exactly the records dated in its windows, whatever the order of the feed and the repetitions in it |
| Refresh.SessionIsInvisible | ingestion/compaction.py:72-160 | a compaction by itself, with exceptions anywhere, leaves the visible records and the locks as they were |
| Refresh.IncrementalEqualsFullRefresh | ingestion/loaders/incremental.py:57-114 | over a feed the rules judge alike at every clock used, any order of windowed runs, interrupted attempts, refused batches, replays and compactions leaves the key-to-values map of one backfill of the finished windows |
| Feeds.BatchIgnoresClock | ingestion/loaders/backfill.py:283-294 | attempts at one such feed accept the same canonical records at every clock, repetitions and conflicts inside the feed included |
| Feeds.FeedRetriesConverge | ingestion/loaders/backfill.py:282-373 | interrupted attempts at one such feed, each at its own clock, converge; nothing is assumed of what they accepted |
| Feeds.InterleavedContent | ingestion/loaders/incremental.py:57-114 | in every clean interleaving over a lake with any past, the lake keeps what it held, gains only what the feed says in the windows of some run, and holds everything it says in the windows of every finished run |
| Feeds.InterleavedEqualsFullRefresh | ingestion/loaders/incremental.py:57-114 | once nothing is parked and every touched day belongs to a finished run, any interleaving of runs, kills and compactions leaves the key-to-values map of one backfill over the lake as it was |
| LateReleases.RefreshLeavesTheTruth | ingestion/loaders/backfill.py:282-373 | one backfill into an empty lake leaves exactly the records the feed has in the windows at its clock |
| LateReleases.RefreshesAgreeExactly | ingestion/loaders/backfill.py:283-291 | over a feed whose records have different keys, two backfills at two clocks leave the same map if and only if the contract judges every record dated in the windows alike at both |
| LateReleases.LateReleaseBreaksTheRefresh | ingestion/contracts/macro.py:4-7 | a macro observation released between the clocks, for which incremental and full refresh leave different lakes |
| LakeStore.GroupByMonth | ingestion/loaders/backfill.py:297-304 | grouping yields the sorted months and the rows of each |
| LakeStore.RowsOfTree | ingestion/loaders/backfill.py:135-148 | reading every file yields exactly the records of the lake |
| LakeStore.RawLake.PlanRun | ingestion/loaders/backfill.py:294-301 | reading, deduplicating and grouping is the read step, and writes nothing |
| LakeStore.RawLake.StagePartition | ingestion/loaders/backfill.py:174-215 | staging one month is the stage step |
| LakeStore.RawLake.PromotePartition | ingestion/loaders/backfill.py:218-227 | directory, lock test, existence test and rename are the promotion step, with its three refusals |
| LakeStore.RawLake.RunBackfill | ingestion/loaders/backfill.py:282-373 | killed after any number of durable actions, the lake is where that many steps of the protocol lead, and the reported error is the protocol's |
| Loader.Load | ingestion/loaders/backfill.py:249-373 | a bad run id or an absent column changes nothing; otherwise the validated selection goes through the protocol |
| Loader.RunIncremental | ingestion/loaders/incremental.py:57-114 | the window is computed from the stored checkpoint, exactly its records are offered, and the lake moves by the protocol |
| Loader.ExecuteBackfill | scripts/backfill.py:43-77 | a bounded backfill never touches a checkpoint, whatever happens to it |
| Loader.FinishedRunMovesTheWatermark | ingestion/loaders/incremental.py:108-113 | a successful run moves the watermark by the monotone rule to its latest accepted date, which lies in its window |
| Stream.NewEventsAreFirst | ingestion/streaming/kafka.py:125-135 | a new event of a batch is the first well-formed message with its id, whatever was committed before |
| Stream.StoredOffsetHasItsId | ingestion/streaming/kafka.py:129-131 | the coordinate test never decides alone |
| Stream.NextKeepsInv | ingestion/streaming/kafka.py:104-176 | every poll, write, commit, crash and new message keeps the bridge's invariant |
| Stream.StreamIsIdempotent | ingestion/streaming/kafka.py:104-176 | for all batch sizes and crashes: what is stored are first messages, each once; below the committed offset every first message is stored and every malformed one quarantined |
| Stream.FirstWinsAre | ingestion/streaming/kafka.py:125-135 | the one-pass fold holds exactly the first well-formed message of every id |
| Stream.DrainedLogIsFirstWins | ingestion/streaming/kafka.py:104-176 | a drained log is stored exactly as the one-pass fold would, each row once, and the quarantine is exactly the malformed messages |
| Reports.EveryResultIsTrue | ingestion/streaming/kafka.py:176-188 | in every history each result record counts as accepted the rows in the files of its run, as quarantined those of its quarantine file, as files what it wrote, and the rest of what it polled and committed as duplicates; it is degraded exactly when there is a quarantine file |
| Stream.ReusedRunIdLosesMessages | ingestion/streaming/kafka.py:143-169 | of a batch about to write a file whose name exists, whatever led there: the messages of that file that are not in the batch are stored nowhere afterwards. Run ids are fresh in every other result |
| Stream.ReuseLosesCommittedMessages | ingestion/streaming/kafka.py:143-169 | for any run id and any two messages of one hour, a history from the empty log that uses the run id twice and ends with the first message committed and stored nowhere |
| Bridge.DecodeMessages | ingestion/streaming/kafka.py:114-123 | every polled message is accepted or rejected, in order, exactly by what the decoder makes of it |
| Bridge.NewRows | ingestion/streaming/kafka.py:125-135 | the loop with growing sets finds exactly the new events, and the counts add up |
| Bridge.GroupByHour | ingestion/streaming/kafka.py:138-141 | the groups are the hours in first-seen order with their events |
| Bridge.PollsAllItCan | ingestion/streaming/kafka.py:104-113 | a poll takes all that the log has, up to the batch limit and to what arrives in time |
| Bridge.ReachedIs | ingestion/streaming/kafka.py:114-176 | the durable state after any number of actions in closed form |
| Bridge.Consumer.ConsumeMicrobatch | ingestion/streaming/kafka.py:90-188 | killed after any number of durable actions, the state is where that many steps lead; offsets move only after every file; with enough actions and a fresh quarantine name the batch completes |
| Cache.CacheIsLeastRecentlyUsed | backend/services/cache.py:35-58 | after any sequence of calls the cache holds exactly the most recently used keys in recency order, and entries equal misses minus evictions minus expiries |
| Cache.RecencyIsLastUse | backend/services/cache.py:41-42 | recency order is the order of last use |
| Cache.EvictIsOk | backend/services/cache.py:55-57 | eviction keeps exactly the most recent entries, unchanged, and counts the others |
| Cache.QueryCache.LookUp | backend/services/cache.py:38-49 | the first section hits exactly on a live entry and deletes a stale one |
| Cache.QueryCache.StoreValue | backend/services/cache.py:52-57 | the second section stores, touches and evicts down to the bound |
| Cache.QueryCache.GetOrCompute | backend/services/cache.py:35-58 | a call is one specified use of the cache; a failed computation only counts a miss |
| CacheThreads.NextKeepsInv | backend/services/cache.py:38-58 | each section in any interleaving keeps the bound and the freshness of every entry and thread |
| CacheThreads.CacheIsFresh | backend/services/query.py:44-60 | in every interleaving an answer is to its own query, from a published state no older than the version in its key, and a hit was stored less than the time to live before the clock was sampled |
| CacheThreads.CountersAreTrue | backend/services/cache.py:38-58 | in every interleaving the hits are the calls answered from the cache and the misses all others that looked |
| CacheThreads.HitsAreYoungExactly | backend/services/cache.py:37-43 | for every time to live and every bound of the cache, all hits that come after a given wait for the lock are on entries younger than the time to live if and only if the wait is zero |
| CacheThreads.AgeIsBounded | backend/services/cache.py:37-43 | the age of a served entry is below the time to live plus the wait |
| CacheThreads.PublishedStateIsServed | backend/services/query.py:44-60 | a call made after a publication is never answered from an older state |
| CacheThreads.WaitingCallersGetStaleEntries | backend/services/cache.py:37-41 | for every time to live and every wait a history from the empty cache in which a hit attains that bound |
| Lineage.Closure | warehouse/lineage.py:90-95 | the pass-until-unchanged loop ends, cycles included, with exactly the ids a directed path links to the start |
| Lineage.Ancestors | warehouse/lineage.py:85-101 | answers the specified selection, or how many nodes matched |
| Lineage.Descendants | warehouse/lineage.py:104-120 | answers the specified selection, or how many nodes matched |
| Lineage.SelectionIsReachability | warehouse/lineage.py:85-120 | exactly the nodes on a path to, or from, the one matching node, and exactly the edges among them, are selected |
| Lineage.MatchesAre | warehouse/lineage.py:85-89 | a target asks for the nodes with that id or that name, and of several nodes under one id the last counts |
| Lineage.EdgesGoDown | warehouse/lineage.py:85-120 | the origin of an edge is an ancestor of its end, and the end a descendant of its origin |
| Lineage.AncestorsAndDescendantsAreDual | warehouse/lineage.py:85-120 | one node is an ancestor of another exactly when the other is its descendant |
| Lineage.SelectingIsIdempotent | warehouse/lineage.py:97-101 | selecting again from a selection changes nothing |
| Fundamentals.CoveringIsLastEffective | dbt/models/intermediate/int_security_fundamentals.sql:18-23 | a range covers a time exactly when its row is the last one effective then |
| Fundamentals.RangesRefineAsOf | dbt/models/intermediate/int_security_fundamentals.sql:16-24 | exactly one range covers a time exactly when the group has a fact effective then, and its row is the answer of the as-of search |
| Fundamentals.TiesGetEmptyRanges | dbt/models/intermediate/int_security_fundamentals.sql:20-23 | a range is empty exactly when the next row has the same effective time |
| Fundamentals.ShowsFrom | dbt/models/intermediate/int_security_fundamentals.sql:15 | a figure shows from its filing time on, and an unfiled one from midnight of the end of its period |
| Fundamentals.LastFilingShows | dbt/models/intermediate/int_security_fundamentals.sql:18-23 | of the figures effective at a time the one that shows became effective last, of those it was ingested last, of those it has the greatest record id |
| Fundamentals.ArrangementsAgree | dbt/models/intermediate/int_security_fundamentals.sql:20-23 | any two orders the database may choose differ at a time only in rows tied on all three columns |
| Staging.AcceptedRowsPassTheFilter | dbt/models/staging/stg_prices.sql:19-21 | the staging filter drops no row the contract accepted |
| Staging.FilterIs | dbt/models/staging/stg_prices.sql:19-21 | a row passes the filter exactly when it has a symbol, a date and a volume and obeys the contract's range rule |
| Staging.OneCopyOfEveryBar | dbt/models/staging/stg_prices.sql:3-19 | the staged rows hold, for every bar with a passing row, one copy and not two: the last ingested, of those one with the greatest vendor id; symbol, date and source make the bar, case and blanks aside |
| Staging.StagedBarsShowTheirRows | dbt/models/staging/stg_prices.sql:4-21 | a staged bar shows the values of its row, positive and enclosed by low and high |
| Staging.StagingCommutesWithCompaction | dbt/models/staging/stg_prices.sql:14-28 | the staged rows over a compacted lake are those over the original, sources differing in case included, when tied best copies are equal |
| Staging.BestCopiesAreTied | dbt/models/staging/stg_prices.sql:15-18 | best copies of one bar are equal in both ordering columns |
| Staging.StagingIsDeterminedByTies | dbt/models/staging/stg_prices.sql:15-18 | that premise is exact: the query has one result if and only if tied best copies are equal |
| Anomaly.MedianAtLeast | quality/anomaly.py:86-90 | fewer than half of the values below a bound keep the median at or above it |
| Anomaly.RobustStatsAre | quality/anomaly.py:86-90 | the statistics of a baseline in any order are the middle of its values and the middle of their distances from it |
| Anomaly.StatsSurviveContamination | quality/anomaly.py:86-90 | changing fewer than half of a baseline keeps the median in the range of the kept values and the deviation within that range |
| Anomaly.HalfTheBaselineBreaksTheMedian | quality/anomaly.py:86-90 | with half or more changed, for every size, the median can be moved as far as one likes |
| Anomaly.OutliersCannotBeMasked | quality/anomaly.py:139-145 | a value far enough outside the kept range is reported as failed however fewer than half of the baseline is corrupted |
| Anomaly.AssessmentIs | quality/anomaly.py:131-145 | a metric is reported exactly when there is enough history and its value is as far from the median as the warning threshold asks, as failed exactly from the failure threshold on, in units of the scaled deviation, one percent of the median or a fixed minimum |
| Anomaly.DistributionFindings | quality/anomaly.py:131-145 | the metric loop reports exactly the specified findings, in order, and none without enough history |

## Left out

- Provider adapters, command lines, the dashboard, orchestration, readiness reports, benchmarks, storage guardrails: plumbing, or easy.
- Column types, schema checks, file sizes, latencies, byte counts, timestamps of results, late-arrival figures and error texts. A defect is modelled by its kind; a record with colliding aliases reports only the collision.
- The databases: a written file reads back its rows, a rename is atomic, hashes are injective, text folding and date parsing are arbitrary functions shared by all users.
- A lake holds one dataset here; datasets have disjoint directories. The temporary `.writing` file is not modelled, since no reader looks at it. A letter or digit of an identifier is ASCII.
- The lock test and the rename of a promotion are one step, as are the file listing and the lock creation of a compaction, and the listing of a dataset build, whose order is not modelled.
- Compaction.StepLock: counts the files of the partition but not the share of them below the size bound.
- TimeTravel.CreateCatalog: does not model the temporary file the catalog is built in; which unsafe dataset name is reported is not modelled.
- TimeTravel.BuildsVerify: the listing and the record of a build are one action; reading the repository state is a parameter.
- Refresh.IncrementalEqualsFullRefresh: one source; compactions run while no attempt is under way. `Feeds.InterleavedEqualsFullRefresh` has them at any time.
- Coverage.NoWindowGaps: needs that a run which read no checkpoint does not move one, because the claim is false without it; `Coverage.NeverAGapExactly` has no such premise.
- Feeds.InterleavedEqualsFullRefresh: run ids are used once, and no run is under way where the comparison begins.
- LateReleases.RefreshesAgreeExactly: needs that different records of the feed have different keys; without that another record can stand in for one that is judged differently.
- Stream.ReusedRunIdLosesMessages: about an arbitrary state, since the bridge's own histories never reuse a run id.
- Convergence.RetriesConverge: nothing else runs between the attempts (`Feeds.InterleavedEqualsFullRefresh` has other runs and compactions); attempts that reuse a run id after its files were compacted are not covered, because a file name may then recur.
- Stream.StreamIsIdempotent: one log partition and one consumer that restarts from the committed offset, with a fresh run id for every attempt.
- Cache.CacheIsLeastRecentlyUsed: sequential calls whose computations succeed; a failed one and `clear` are in the method contracts. Latency counters are not modelled.
- CacheThreads.CacheIsFresh: the version is a publication counter, so two published states with the same modification time and size are not told apart by the code but are here. Queries over the metadata store are not covered by the version and are left out.
- Anomaly.OutliersCannotBeMasked: over the reals; rounding is not modelled, nor are the absolute thresholds of the other metrics.
- Lineage: assembling the graph from build artifacts; only the selections are modelled.
