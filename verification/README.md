# OMERO.DataQueryWorker: a verified model

OMERO.DataQueryWorker is one process that caches immutable tabular sources and the results of SQL
queries on them. Many threads share a store that is bounded by quotas, protected by leases, evicted
by least recent use and recovered after crashes. This project models that store and the protocol
around it in Dafny and proves what the program is for: that the result cache is transparent, that no
resource leaks, that quotas hold, that a crash loses nothing that was committed, and that what is
hashed determines what was asked.

`dafny verify dfyconfig.toml` checks everything.

## How it is put together

- `Basics`, `Model`: sums over maps, counts over threads, runs of transition systems; settings,
  records, manifests, entries. A digest is an ideal value that carries its preimage.
- `CacheSpec`: the cache manager as functions on its state (entries of two roots, leases, staging
  areas). `CacheManager` is the class with the same fields whose methods, loops included, are proved
  to change the state exactly so, and what that means to a caller. `CleanupTheorems` and
  `CacheInvariants` prove what these functions guarantee: which entries eviction removes, when a
  reservation is granted, what every operation keeps. `Shortfalls` holds two runs from an empty cache.
- `Service`: queries, ingestions, downloads and upload spools as threads with program counters, one
  shared state, every lock-protected section one atomic action, an exception possible at each point,
  after the rename of a commit too, and a cancellation in the awaits after which nobody cleans up;
  besides them a cleaner, an administrator's purge, a garbage collector that may drop any lock nobody
  refers to, and restarts. `ServiceInvariants` and `ServiceSafety` prove the invariant step by step,
  `ServiceRuns` for all runs. `ServiceTheorems`, `ServiceHistory` and `ServiceExits` state the results;
  `ServiceAnswers` who is served, admitted and locked out at which step; `ServiceProgress` and `UploadProgress`
  that a query and an upload are carried out when they find a slot, their name free and room.
- `Publication`: the file system with what a power loss may undo, and every system call of commits,
  touches, removals and recovery, with a crash between any two. `PublicationInvariant` proves its
  invariant call by call, `CrashSafety` what survives over whole runs, `Incarnations` which removed
  entries can come back and when, `DiskPaths` what stretches of work and whole recoveries amount to.
- `Together` couples the two machines: each step of the service comes with the system calls it makes.
  `Reboots` has the deaths: after any call of a step, and again after any call of the recovery or the
  startup cleanup of the processes that follow, until one comes up. `Lifetimes` has the runs of the pair:
  that they are runs of both machines, and what an entry may count on in them.
- `Fencing`: service processes, engine children, the two lock files, parent-death signals.
- `Writer`, `Upload`, `Execution`: the result writer, the upload loops, the wait for a child and its end,
  as methods and classes with their loops. `WriterContents` tells what stands in the files and previews.
- `JsonText`, `JsonValues`, `Keys`, `Manifests`: canonical JSON with its escapes and a reader for it;
  query keys, source ids and manifests built on it. `Rereading`, `ManifestFiles` and `StagedFiles` tie
  the manifest texts to the records of the service and to the bytes on the disk.

Assumptions stand in the contracts as named predicates: `ServiceSafety.Sound` (canonicalising SQL
preserves the meaning of a query classed as deterministic, and two conversions of one upload with one
schema digest answer such queries alike), `Keys.HexIsFaithful` (digest texts are one-to-one), `Keys.Encodable`
(texts without surrogate pairs; parameter values are scalars, since anything else has been refused by
then), `Manifests.Lawful` (`str` and `int` fix texts and integers), `Manifests.CleanSource` and
`Manifests.CleanResult` (no surrogate pairs in what is written), `ManifestFiles.Inverse` (identifiers, digests
and the times a `datetime` can be read back as they were written, a time in 20 or 27 characters),
`CleanupTheorems.Covers` (a directory listing names every entry once). Two more are built into the model:
`Service.ExecuteTransition` lets the engine answer a query classed as deterministic with a function of
runtime, data, SQL and parameters, and a parameter's `model_dump(mode="json")` is the parameter. The engine,
the SQL canonicaliser, the volatility test and CSV conversion are parameters (`Service.World`), as are
clocks, directory order and free space (`CacheSpec.Env`).

## What was found

Where the code falls short of a property as it is usually put, the model follows the code, a lemma
shows it with an input or a run, and another proves exactly when the property holds.

- A hit reads its record back from a manifest that was written with sorted members: the preview of a
  query that returns objects (a DuckDB STRUCT) is not given back to the letter (`MembersMove`). A hit is
  what a fresh execution would answer, read back; to the letter if and only if the preview's members
  are sorted already (`CacheIsTransparent`).
- A lookup rewrites the manifest without a reservation, and a time stamp on a whole second is seven
  bytes shorter than others: a full root can exceed its maximum by 14 bytes an entry (the run
  `Shortfalls.TouchExceedsQuota`; `TouchGrowth`). The quota theorems carry exactly this slack.
- An exception after the rename of a commit leaves the entry published although the request fails
  (`ReportsAreHonest`, on the disk `AbortLeavesIff`), and until its area is discarded the reservation is counted
  beside the entry (`CountsTwiceIff`).
- `docs/production-foundations.md:53` says that purging a source includes the associated results. The
  code looks for results of sources that still have a directory: results of a source that was evicted
  before stay, for a purge by source and by scope (the run `Shortfalls.PurgeLeavesResults`; the conditions,
  both ways, `PurgeFinality` and `ScopePurgeFinality`).
- Removals are not synchronised to the disk: an evicted or purged entry can come back whole after a
  power loss (the run `RemovedMayReturn`) exactly as long as no commit has synchronised its root and no power
  loss has settled it (`RemovalIsFinalIff`).
- A name can change its meaning across a power loss: an entry is removed, its name committed again, the
  commit interrupted before the fsync of the root, and the old entry comes back (the run
  `StaleIncarnation`; `RebindsIff` says exactly when it can happen). An entry whose commit has returned cannot
  be displaced, and kills, any number of them, displace none (`DeathBinds`).
- The kernel closes a dying service's files, and with them its locks, before it notifies the children;
  and the lifespan gives up the volume lock while the process lives on. A child can then take the shared
  lock after the successor has recovered (the history `LateChild`): exactly if one is on its way through the
  guard when the locks go, or the process lives on with a thread past its check for stopping
  (`FenceBreaksIff`), and exactly at the event that `FenceBreaksAt` names. What holds unconditionally is `RecoveryIsAlone` and `OrphansNeverBegin`.
- A request cancelled while its lookup, its `staging_path` or its `discard_staging` runs in another thread, or
  before its `discard_staging` has begun to, leaves a lease, a staging area, a slot, or area and slot, that nobody
  gives back; these are the only leaks (`FinishesIff`, `LeakIff`).
- Canonical JSON writes a surrogate pair and the astral character it encodes alike
  (`PairsCollide`); `QuotedEqualIff` says exactly which texts collide.
- The branches for an existing target, for a legacy record and for unreadable stamps cannot run in a
  process whose entries were all published by this version (`DeadBranches`).

## Model

| member | source | states |
|---|---|---|
| ServiceTheorems.CacheIsTransparent | src/omero_data_query_worker/service.py:343-412 | In every state of every run a hit has the columns, row count, byte count, CSV digest and preview that executing the query now, on the source now leased, would produce, the members of objects in the preview sorted; it has them to the letter if and only if they are sorted already |
| ServiceTheorems.DownloadsAreRight | src/omero_data_query_worker/app.py:220-263 | While a keyed result is being sent, its file has the announced length and digest and is the CSV of every execution the key describes |
| ServiceTheorems.SingleFlight | src/omero_data_query_worker/service.py:378-412 | No two threads execute one deterministic key or ingest one source id at once, although unreferenced locks may be collected at any time; and what they are about to publish is absent |
| ServiceTheorems.DeadBranches | src/omero_data_query_worker/cache.py:325-397 | A commit never meets an existing target and a key lookup never meets a legacy record or an unreadable stamp |
| ServiceTheorems.CommitAppears | src/omero_data_query_worker/cache.py:325-340 | A commit publishes an entry that was absent and is there afterwards |
| ServiceTheorems.CommitsAreSeparated | src/omero_data_query_worker/cache.py:383-397 | Between two commits of one id some step removes the entry of the first |
| ServiceTheorems.ResourcesAreConserved | src/omero_data_query_worker/service.py:486-513 | In every reachable state lease counts, held locks, taken slots, the active counter and staging areas are exactly what threads hold, those of cancelled requests included, and slots stay within their limits |
| ServiceTheorems.QuietIsInitial | src/omero_data_query_worker/service.py:343-355 | With no operation in progress and none abandoned leases, staging areas, locks, slots and the active counter are back to their initial values, whatever was raised before |
| ServiceHistory.BindingIsImmutable | src/omero_data_query_worker/cache.py:284-340 | While an id stays committed within one life of the process its record and the bytes of its files never change |
| ServiceHistory.ResolveIffReused | src/omero_data_query_worker/service.py:163-177 | resolve_source finds a record exactly when ingestion would answer reused, with the same record; a live entry that does not match is exactly a conflict |
| ServiceHistory.LeasedEntryStays | src/omero_data_query_worker/cache.py:205-227 | While leased an entry is not removed by anybody, keeps record, files and size, and its manifest stays well-formed |
| ServiceHistory.LeasedIsCommitted | src/omero_data_query_worker/cache.py:205-219 | Whatever is leased is committed |
| ServiceHistory.PurgeIsFinal | src/omero_data_query_worker/cache.py:522-565 | After a purge has removed a source no result names it until it is ingested again, whatever queries were in flight, as long as the process lives |
| ServiceHistory.CommitNamesPresent | src/omero_data_query_worker/service.py:348-349 | A result is only published under the name of a source that is committed then |
| ServiceHistory.QuotaAlways | src/omero_data_query_worker/cache.py:229-255 | In every reachable state committed bytes plus what is reserved for directories under tmp are at most the maximum plus 14 bytes an entry |
| ServiceHistory.CountsTwiceIff | src/omero_data_query_worker/cache.py:334-340 | The staged bytes that reserve counts are those under tmp, except exactly while a thread stands between a commit that raised after the rename and the discard of its area |
| ServiceHistory.ScopePurgeAlways | src/omero_data_query_worker/cache.py:533-546 | In every reachable state a purge by scope leaves no result of the scope if and only if each names a source still committed and the scope is not empty |
| ServiceHistory.ReserveExactAlways | src/omero_data_query_worker/cache.py:229-247 | In every reachable state a reservation is granted if and only if leased bytes, other staging areas and the request fit the maximum and the volume has room |
| ServiceHistory.ReadinessIsExact | src/omero_data_query_worker/cache.py:583-596 | In every reachable state the worker is ready if and only if a new staging area of either kind would be granted a byte |
| ServiceHistory.ReportsAreHonest | src/omero_data_query_worker/service.py:414-480 | A report of a new source or result is made by the step that commits it and never changes; a thread that fails has committed nothing, except exactly when its commit raised after the rename |
| ServiceAnswers.HitIsServed | src/omero_data_query_worker/service.py:378-395 | In every run, a query that looks its key up, before its lock or under it, reports the stored result as a hit if and only if the cache can serve it then, and else has nothing to report and goes on; what is stored has this key and provenance |
| ServiceAnswers.LeaseIsServed | src/omero_data_query_worker/service.py:343-349 | In every run a query begins with the stored record of its source if that can be served, and fails at once if not |
| ServiceAnswers.DownloadIsServed | src/omero_data_query_worker/app.py:220-263 | In every run a download is sent the stored result if that can be served, and ends at once if not |
| ServiceAnswers.UploadIsAnswered | src/omero_data_query_worker/service.py:163-184 | In every run, an upload whose source can be served is reported reused, with the stored record, if and only if format, size and expected digest agree, else a conflict; one whose source cannot is refused exactly if it is declared too large |
| ServiceAnswers.KeyedIff | src/omero_data_query_worker/service.py:376-404 | In every reachable state what a query executes is named by a key if and only if it is deterministic, and by the key of its source and request: no deterministic query gets past the cache |
| ServiceAnswers.RanIsRight | src/omero_data_query_worker/service.py:414-480 | In every run, the result a query reports as published describes the engine's answer to the letter, is of its source and named as decided; for a deterministic query the answer is that of a fresh execution on the source still leased, read back |
| ServiceAnswers.AdmittedIff | src/omero_data_query_worker/service.py:496-513 | In every run a request is admitted if and only if fewer threads than max_concurrent_queries, or max_concurrent_ingestions, hold a slot of its kind, and then it holds one |
| ServiceAnswers.LockedIff | src/omero_data_query_worker/service.py:486-494 | In every run a lock is taken if and only if no thread has it; who finds it taken fails at once |
| ServiceAnswers.CleanerMakesRoom | src/omero_data_query_worker/cache.py:442-454 | In every run the cleaner's pass removes what a cleanup to the maximum must, and only that |
| ServiceAnswers.StartMakesRoom | src/omero_data_query_worker/cache.py:442-458 | In every run a start leaves of what recovery kept, in both roots, all but what a cleanup to the maximum must remove |
| ServiceProgress.QueryIsAnswered | src/omero_data_query_worker/service.py:343-484 | From every reachable state a query whose source can be served ends by its own steps, whatever the others hold, with the stored result if that can be served; and if not, given a free slot, nobody at its key and room beside what is leased and reserved, with a published result that describes the engine's answer |
| UploadProgress.UploadIsCreated | src/omero_data_query_worker/service.py:113-241 | From every reachable state an upload that keeps its declaration and the limits ends by its own steps, whatever the others hold, as a created source whose record tells what was uploaded, given that the source cannot be served, a free slot, nobody at its name and room beside what is leased and reserved |
| ServiceExits.NeverStuck | src/omero_data_query_worker/service.py:486-513 | Every thread whose request was not abandoned always has a step of its own that brings it nearer its end, whatever others hold |
| ServiceExits.CanFinishAlone | src/omero_data_query_worker/service.py:414-513 | From every reachable state such a thread can finish alone within nine steps and then holds nothing |
| ServiceExits.FinishesIff | src/omero_data_query_worker/upload.py:33-83 | A thread can give back all it holds if and only if its request was not cancelled in an await after which nobody does: of the lookup, of staging_path, of discard_staging before or after it begins |
| ServiceExits.LeakIff | src/omero_data_query_worker/app.py:220-263 | When no thread has a step left, leases, areas, locks, slots and counters are back to their initial values if and only if no request was abandoned |
| ServiceRuns.InvariantAlways | src/omero_data_query_worker/service.py:49-86 | The invariant of the service holds in every state of every run, restarts on whatever valid entries a disk may hold included |
| ServiceRuns.StepKeeps | src/omero_data_query_worker/service.py:343-513 | Every step of a thread, the cleaner, a purge, the collector or a restart keeps the invariant |
| ServiceRuns.RestartKeeps | src/omero_data_query_worker/service.py:65-80 | Recovery and the two cleanups of prepare() establish the invariant from any disk whose entries that pass the checks were once published |
| ServiceRuns.PreparedFits | src/omero_data_query_worker/service.py:77-80 | Starting up evicts down to both quotas, whatever the previous quotas were |
| Together.SectionKeeps | src/omero_data_query_worker/cache.py:325-397 | A step of the service renames a filing into a root exactly when its name is newly in the cache and takes out a name exactly when it has left; whatever else its system calls do, in any order and mixture, cache and disk stay in agreement: same names, each leading to a directory with the record and data of its entry |
| Together.CallsAgree | src/omero_data_query_worker/cache.py:325-440 | Renames of what is newly in the cache and removals of what has left it give the disk the names of the new cache |
| Together.QuietSection | src/omero_data_query_worker/service.py:343-513 | From every agreeing pair each step that adds and removes nothing can be made |
| Together.StagingIsFine | src/omero_data_query_worker/service.py:378-412 | What threads stand ready to commit is valid and new, and no two stand ready with one name |
| Reboots.RebootIsRestart | src/omero_data_query_worker/service.py:65-80 | Deaths after any system calls, by kills or power losses, of a step, of the recovery or of the startup cleanup of the next processes, any number of them, are a restart as the service model takes it |
| Reboots.RebootKeeps | src/omero_data_query_worker/service.py:65-80 | The process that comes up after them agrees with its disk: same names, each leading to a directory with the record and data of its entry |
| Reboots.KilledComesUp | src/omero_data_query_worker/service.py:65-80 | From every agreeing pair with tmp empty a killed process comes up again on all it had committed, if its startup cleanup evicts nothing |
| Lifetimes.CoupledAlways | src/omero_data_query_worker/cache.py:456-488 | In every run of service and disk, through all deaths, those in recovery and startup cleanup included, the two agree and everything filed is the content of a valid entry |
| Lifetimes.RunIsRun | src/omero_data_query_worker/service.py:65-80 | Every run of service and disk is, seen from the service, a run of the service model: what holds in all of those holds through kills and power losses after any calls, those of recovery and startup cleanup included |
| Lifetimes.DiskRuns | src/omero_data_query_worker/cache.py:456-488 | And, seen from the disk, a run of the disk model |
| Lifetimes.SurvivesDeath | src/omero_data_query_worker/cache.py:325-340 | Through any number of deaths until a process is up again: an entry whose commit has returned survives power losses, kills take none but what was being removed and nothing that is leased, unless a start that is cut short evicts it; what survives has its record and data |
| Lifetimes.DeathBinds | src/omero_data_query_worker/cache.py:456-488 | After any number of deaths a name leads to the same directory, filed as the same, unless one was a power loss that found the entry not committed in full and another directory able to come back under its name |
| Lifetimes.BindingLasts | src/omero_data_query_worker/cache.py:284-340 | Across any number of deaths record and data of an id that stays committed never change, unless a power loss so displaces it |
| StagedFiles.ResultIsStaged | src/omero_data_query_worker/service.py:440-474 | The manifest file that a query writes reads back as what it stages, and files the record that lookups will return |
| StagedFiles.SourceIsStaged | src/omero_data_query_worker/service.py:222-242 | The manifest file that an ingestion writes reads back as what it stages |
| ServiceSafety.OneRunIsRight | src/omero_data_query_worker/service.py:299-326 | One execution under a key has the answer of every execution the key describes |
| ServiceSafety.OneLockPerName | src/omero_data_query_worker/service.py:82-86 | One name is locked by one thread, although the table of locks is weak |
| ServiceSafety.KeyLookupIsRight | src/omero_data_query_worker/cache.py:342-358 | On a cache of valid entries a key lookup hits with the right answer or leaves the key absent |
| ServiceSafety.MissingIsAbsent | src/omero_data_query_worker/cache.py:284-305 | On a cache of valid entries a lookup that finds nothing leaves nothing, and one that finds returns the stored record |
| ServiceSafety.ContentsKept | src/omero_data_query_worker/cache.py:325-397 | Every step leaves only entries that describe their data and, under a key, the right answer |
| ServiceSafety.TargetsKept | src/omero_data_query_worker/service.py:388-412 | Every step keeps what threads are about to publish absent and apart |
| ServiceSafety.FactsKept | src/omero_data_query_worker/service.py:357-480 | Every step keeps what each thread takes to be true: its source record, its key, its answer, its report |
| ServiceSafety.QuotaKept | src/omero_data_query_worker/cache.py:229-255 | Every step of a thread keeps both quotas |
| ServiceInvariants.TransitionMoves | src/omero_data_query_worker/service.py:343-513 | Each step of each program moves what its thread holds exactly as its action says |
| ServiceInvariants.EffectEvolves | src/omero_data_query_worker/cache.py:205-397 | Every action leaves entries untouched but for stamps, removes only unleased ones, and adds only the one it publishes |
| ServiceInvariants.LeasesConserved | src/omero_data_query_worker/cache.py:205-227 | Every step keeps lease counts equal to the leases threads hold |
| ServiceInvariants.LocksConserved | src/omero_data_query_worker/service.py:486-494 | Every step keeps each held lock with exactly one thread |
| ServiceInvariants.SlotsConserved | src/omero_data_query_worker/service.py:496-513 | Every step keeps slots and the active counter equal to what threads hold, within limits |
| ServiceInvariants.StagingConserved | src/omero_data_query_worker/cache.py:249-273 | Every step keeps the staging areas exactly those of threads, each with one thread and of its kind |
| CleanupTheorems.CleanupExact | src/omero_data_query_worker/cache.py:410-440 | Cleanup removes exactly the unleased malformed entries, the unprotected expired ones and the shortest least recently used run of unprotected live ones that meets the limit; nothing evicted was accessed later than an unprotected survivor |
| CleanupTheorems.CleanupMakesRoom | src/omero_data_query_worker/cache.py:399-440 | The same told of time stamps and leases alone: what stays of a root and what the evicted run is |
| CleanupTheorems.EvictIsLeastRun | src/omero_data_query_worker/cache.py:434-440 | The eviction loop takes the least prefix of the unprotected entries in access order that brings the total within the limit, or all of them |
| CleanupTheorems.CleanupTotal | src/omero_data_query_worker/cache.py:410-440 | A cleanup ends within the limit or with leased entries only |
| CleanupTheorems.ReserveExact | src/omero_data_query_worker/cache.py:229-247 | Given well-formed leased entries, a reservation succeeds if and only if leased bytes, other staging and the request fit and the volume has room |
| CleanupTheorems.HasCapacityExact | src/omero_data_query_worker/cache.py:583-596 | Readiness holds if and only if one byte would be admitted in a new staging area of either kind on any volume with room |
| CleanupTheorems.HasCapacityGrows | src/omero_data_query_worker/cache.py:583-596 | A ready cache also lets every existing staging area grow by a byte |
| CacheInvariants.CleanupIsTame | src/omero_data_query_worker/cache.py:410-440 | Cleanup removes nothing leased and changes nothing else |
| CacheInvariants.GetSourceIsTame | src/omero_data_query_worker/cache.py:284-305 | A lookup, expired or not, takes no leased entry away and changes stamps only |
| CacheInvariants.GetResultIsTame | src/omero_data_query_worker/cache.py:360-381 | A lookup, expired or not, takes no leased entry away and changes stamps only |
| CacheInvariants.SourceLookupExact | src/omero_data_query_worker/cache.py:284-305 | A source is served exactly when its entry is complete and unexpired or leased; served, it has the stamps of now and nothing else changes; not served, it is gone unless leased |
| CacheInvariants.ResultLookupExact | src/omero_data_query_worker/cache.py:360-381 | A result is served exactly when its entry is complete and unexpired or leased; served, it has the stamps of now and nothing else changes; not served, it is gone unless leased |
| CacheInvariants.PublishIsTame | src/omero_data_query_worker/cache.py:325-340 | A commit adds its entry, removes at most unleased ones and gives up its staging area, unless a directory could not be synchronised; a refused one adds nothing |
| CacheInvariants.QuotaInBytes | src/omero_data_query_worker/cache.py:229-255 | The quota invariant bounds committed bytes plus reservations by the maximum plus 14 bytes an entry |
| CacheInvariants.TouchGrowth | src/omero_data_query_worker/cache.py:300-304 | A touching lookup changes the bytes of its root by exactly the change of two stamps |
| Shortfalls.TouchExceedsQuota | src/omero_data_query_worker/cache.py:300-304 | From an empty cache: the ingestion of an empty database as a.sqlite whose manifest fills the quota on a whole second, a lookup one microsecond later, and the root is 14 bytes over the maximum |
| CacheInvariants.QuotaAfterReserve | src/omero_data_query_worker/cache.py:229-247 | A reservation, granted or not, keeps both quotas |
| CacheInvariants.QuotaAfterPublish | src/omero_data_query_worker/cache.py:325-340 | A commit, done or refused, keeps both quotas |
| CacheInvariants.CommitEvictsNoLiveEntry | src/omero_data_query_worker/cache.py:329-339 | The cleanup that closes a commit evicts no live entry for space |
| CacheInvariants.PublishLeaves | src/omero_data_query_worker/cache.py:325-340 | After a commit every entry that its reservation left is there, unless it is expired or unreadable and nobody leases it |
| CacheInvariants.ReserveMakesRoom | src/omero_data_query_worker/cache.py:229-247 | A reservation refused for its size or the volume evicts nothing; any other leaves its root without the expired and the unreadable that nobody leases and without the shortest least recently used run of unleased live entries that makes room; without its last entry the run would not do, and where there is room it is empty |
| CacheInvariants.CountedTwiceIff | src/omero_data_query_worker/cache.py:239-247 | The sum over staging areas exceeds the bytes under tmp exactly while an area whose directory has moved is still registered with bytes |
| CacheInvariants.PurgeFinality | src/omero_data_query_worker/cache.py:533-546 | After a purge by source id no result names the source if and only if the source still had a directory or no result named it |
| CacheInvariants.ScopePurgeFinality | src/omero_data_query_worker/cache.py:533-546 | After a purge by scope no result of the scope is left if and only if each named a source that still had a directory and the scope was not empty |
| Shortfalls.PurgeLeavesResults | src/omero_data_query_worker/cache.py:533-546 | From an empty cache: ingest, query, let the source expire, purge it by id or by scope; its result is still there and still served |
| CacheInvariants.PurgeAllOrNothing | src/omero_data_query_worker/cache.py:522-565 | Selected are exactly the sources asked for by id or scope, the results naming one of them and the result asked for; busy exactly the leased ones among these; if it is no dry run and none is leased, exactly the selected entries go, else nothing, and every other entry stays as it is |
| CacheInvariants.RecoverableKept | src/omero_data_query_worker/cache.py:300-304 | Touching never changes whether an entry passes recovery |
| CacheInvariants.RecoverKeepsIntact | src/omero_data_query_worker/cache.py:456-488 | Recovery keeps exactly the sources and results that are intact, told of record, file, length and digest |
| CacheInvariants.PublishedSourceRecovers | src/omero_data_query_worker/cache.py:325-340 | What commit_source publishes passes recovery |
| CacheManager.CacheManager.Release | src/omero_data_query_worker/cache.py:221-227 | One holder less, of this name only; it stays leased if and only if it had more than one; a release nobody owes changes nothing |
| CacheManager.CacheManager.RemoveDirectory | src/omero_data_query_worker/cache.py:510-520 | Removes a directory that is there and not leased, counting an eviction, and nothing else |
| CacheManager.CacheManager.GetSource | src/omero_data_query_worker/cache.py:284-305 | Found if and only if the entry is complete and unexpired or leased, with the record of its manifest; raises if and only if its expiry cannot be read; found it has the stamps of now and all else as before, not found it is gone unless leased |
| CacheManager.CacheManager.GetResult | src/omero_data_query_worker/cache.py:360-381 | Found if and only if the entry is complete and unexpired or leased, with the record of its manifest; raises if and only if its expiry cannot be read; found it has the stamps of now and all else as before, not found it is gone unless leased |
| CacheManager.CacheManager.LeaseSource | src/omero_data_query_worker/cache.py:206-209 | Found if and only if it can be served; then it is there with that record and has one holder more, no other count changes, and no other entry |
| CacheManager.CacheManager.AcquireResult | src/omero_data_query_worker/cache.py:215-219 | Found if and only if it can be served; then it is there with that record and has one holder more, no other count changes, and no other entry |
| CacheManager.CacheManager.ResolveSource | src/omero_data_query_worker/cache.py:307-323 | Found if and only if the source can be served and has the declared format, size and, if given, digest; the entry is touched whenever it could be served, match or not |
| CacheManager.CacheManager.LookUpKey | src/omero_data_query_worker/cache.py:342-358 | A hit or a legacy record if and only if the entry of the key can be served and stores this key; a hit has the record of the manifest with provenance, a legacy record has none |
| CacheManager.CacheManager.DropLegacy | src/omero_data_query_worker/cache.py:352-357 | Dropped if and only if nobody leases it; then it is absent, else nothing changed; no other entry, lease or area is touched |
| CacheManager.CacheManager.DirectoryBytes | src/omero_data_query_worker/cache.py:44-45 | The loop over a listing computes the bytes of all entries of the root |
| CacheManager.CacheManager.StagedBytes | src/omero_data_query_worker/cache.py:239 | The loop computes the reservations of a kind, one area left out |
| CacheManager.CacheManager.PinnedBytes | src/omero_data_query_worker/cache.py:590-592 | The loop computes the bytes of leased entries of a root |
| CacheManager.CacheManager.HasCapacity | src/omero_data_query_worker/cache.py:583-596 | True if and only if both kinds have headroom beyond leased and staged bytes |
| CacheManager.CacheManager.Sweep | src/omero_data_query_worker/cache.py:417-433 | The first pass removes exactly the doomed entries and lists the others with their bytes |
| CacheManager.CacheManager.EvictOldest | src/omero_data_query_worker/cache.py:434-440 | The second pass removes exactly what the specified eviction loop removes |
| CacheManager.CacheManager.Cleanup | src/omero_data_query_worker/cache.py:410-440 | The two passes together are the specified cleanup |
| CacheManager.CacheManager.StagingPath | src/omero_data_query_worker/cache.py:268-273 | A new area leaves what is staged, of either kind, as it was |
| CacheManager.CacheManager.DiscardStaging | src/omero_data_query_worker/cache.py:252-255 | What is staged of each kind falls by exactly what the area had reserved |
| CacheManager.CacheManager.Reserve | src/omero_data_query_worker/cache.py:229-247 | Refused as too much or for the volume exactly when the request does not fit beside the other areas or the volume lacks the growth, and then nothing changes; otherwise what goes of its root are the expired and the unreadable that nobody leases and the shortest least recently used run of unleased live entries that makes room, none if there is room; granted exactly if then there is |
| CacheManager.CacheManager.CleanupRoot | src/omero_data_query_worker/cache.py:442-454 | A cleanup of a root removes the expired and the unreadable that nobody leases and the shortest least recently used run of unleased live entries that brings it to its maximum, and nothing else anywhere |
| CacheManager.CacheManager.CommitSource | src/omero_data_query_worker/cache.py:325-340 | Refused if and only if the target is absent and its bytes are not granted, and then nothing is added; committed or failed after the rename, the entry is there, and what its reservation left of the root is there unless expired or unreadable and not leased; kept if and only if an existing target can be served; otherwise entries are only touched or, unleased, removed |
| CacheManager.CacheManager.CommitResult | src/omero_data_query_worker/cache.py:383-397 | Refused if and only if the target is absent and its bytes are not granted, and then nothing is added; committed or failed after the rename, the entry is there, and what its reservation left of the root is there unless expired or unreadable and not leased; kept if and only if an existing target can be served; otherwise entries are only touched or, unleased, removed |
| CacheManager.CacheManager.Purge | src/omero_data_query_worker/cache.py:522-565 | The same of the report it returns and the state it leaves: what is selected, what is busy and what goes, each by membership |
| CacheManager.CacheManager.Recover | src/omero_data_query_worker/cache.py:456-488 | Keeps exactly the intact entries, as they are: named after their record, the data file there with the digest, and for results the length, that the record gives |
| CrashSafety.RecoveryLeavesOnlyWhole | src/omero_data_query_worker/cache.py:456-488 | When recovery completes, after crashes at whatever points, tmp is empty and every entry left passes the checks and shows exactly what was published under its id |
| CrashSafety.CommittedSurvives | src/omero_data_query_worker/cache.py:325-340 | An entry whose commit returned and whose removal has not begun is there in every later state, crashes included, with its record and data |
| CrashSafety.AbortLeavesIff | src/omero_data_query_worker/cache.py:334-340 | An exception in a commit leaves its entry in the root if and only if it comes between the rename and the last fsync, and the entry is then whole |
| PublicationInvariant.CommitAdvances | src/omero_data_query_worker/cache.py:48-77 | Each system call before the move establishes what the next relies on, up to a directory that is whole whatever comes back |
| PublicationInvariant.ReplaceKeeps | src/omero_data_query_worker/cache.py:48-55 | Replacing a manifest by a synchronised one with the same record keeps the directory whole whatever comes back |
| PublicationInvariant.TouchKeeps | src/omero_data_query_worker/cache.py:300-304 | Every system call of a touch keeps the invariant, so a crash in a touch loses nothing |
| PublicationInvariant.CommitKeeps | src/omero_data_query_worker/cache.py:325-340 | Every system call of a commit keeps the invariant |
| PublicationInvariant.RemoveKeeps | src/omero_data_query_worker/cache.py:510-520 | Every system call of a removal keeps the invariant |
| PublicationInvariant.CrashKeeps | src/omero_data_query_worker/cache.py:456-458 | A crash keeps the invariant |
| PublicationInvariant.VictimIsNotLive | src/omero_data_query_worker/cache.py:456-488 | Recovery never empties a directory that was committed and not removed |
| PublicationInvariant.RecoveredDurable | src/omero_data_query_worker/cache.py:456-488 | After a power loss, what recovery leaves cannot be lost by the next |
| CrashSafety.CrashGivesDisk | src/omero_data_query_worker/cache.py:456-488 | After a power loss all live entries are there as published, and whatever passes the checks was published |
| CrashSafety.RemovedMayReturn | src/omero_data_query_worker/cache.py:510-520 | A run in which a removed entry is back after a power loss and passes recovery |
| Incarnations.RemovalIsFinalIff | src/omero_data_query_worker/cache.py:510-520 | In every run, a removed entry that has not been back can be on the disk after a power loss and pass recovery if and only if since its removal no commit has synchronised its root and no power loss has settled it |
| Incarnations.RebindsIff | src/omero_data_query_worker/cache.py:325-340 | In every run, a power loss can put another directory that passes recovery under a name if and only if one went from under it that could come back whole and nothing has settled that since |
| Incarnations.StaleIncarnation | src/omero_data_query_worker/cache.py:325-340 | From any state with a committed entry and a commit ready under its name: a run in which the entry is removed, the name visibly committed again, and after a power loss the old entry is back and passes recovery |
| DiskPaths.RecoveryLeaves | src/omero_data_query_worker/cache.py:456-488 | What recover() leaves is exactly what passes the checks once tmp is empty, at the same directories, untouched |
| DiskPaths.HeldThrough | src/omero_data_query_worker/cache.py:456-488 | What is live when a process dies, or whole and not being removed while no power is lost, passes the last checks at its directory, however many starts are cut short, unless one evicts it |
| DiskPaths.NameThrough | src/omero_data_query_worker/cache.py:456-488 | A name that passes the last checks and leads elsewhere than at the first death was displaced by a power loss in between |
| Fencing.OneOwner | src/omero_data_query_worker/operations.py:125-152 | At most one service owns the volume |
| Fencing.RecoveryIsAlone | src/omero_data_query_worker/operations.py:100-121 | Recovery never overlaps an engine process past its guard, dying ones included |
| Fencing.OrphansNeverBegin | src/omero_data_query_worker/operations.py:80-97 | No child begins executing once its parent is dead, wherever in its guard the death finds it |
| Fencing.AtomicIsExclusive | src/omero_data_query_worker/operations.py:80-152 | If locks and children went together, every process past its guard would be a child of the service that serves |
| Fencing.FenceBreaksIff | src/omero_data_query_worker/operations.py:80-152 | When an owner's locks go, a child of it can come to execute beside a serving successor if and only if one is on its way through the guard then, or the owner lives on with a thread past its check for stopping |
| Fencing.FenceBreaksAt | src/omero_data_query_worker/operations.py:80-97 | An event breaks the fence if and only if by it a child takes the shared lock whose parent has lost the volume and is not yet dead, while another service serves |
| Fencing.LateChild | src/omero_data_query_worker/operations.py:80-152 | A history in which a child executes under a successor that has recovered |
| Fencing.StragglersOnly | src/omero_data_query_worker/operations.py:80-97 | Only a child whose parent has lost the volume and is not yet dead can do so |
| Writer.BoundedCsvOutput.Write | src/omero_data_query_worker/engines.py:42-49 | Writes and hashes the content whole if it fits, else changes nothing |
| Writer.WriteResult | src/omero_data_query_worker/engines.py:287-334 | File and report depend only on the rows up to the first empty batch, not on the batches |
| Writer.Retype | src/omero_data_query_worker/engines.py:317-320 | The type pass sets exactly the columns still unknown that have a value in the row |
| Writer.SucceedsIff | src/omero_data_query_worker/engines.py:287-334 | Succeeds if and only if all rows can be encoded, there are at most max_rows and header and rows take at most max_bytes |
| Writer.SuccessIsComplete | src/omero_data_query_worker/engines.py:302-334 | On success the file is header and all lines, length and digest are the file's, the preview is the first hundred rows normalised |
| Writer.SuccessTypes | src/omero_data_query_worker/engines.py:294-320 | On success a column's type is the engine's, or with SQLite that of its first value that is not null: BOOLEAN, INTEGER, REAL, BLOB or TEXT by the kind of the value |
| WriterContents.SuccessShows | src/omero_data_query_worker/engines.py:302-334 | On success the file is the line of the column names and then for each row in turn the line of its cells in their order: null, booleans, numbers and texts as they are, times as ISO texts, decimals as digits, blobs, lists and dictionaries as the canonical text of what they stand for; the preview has the first hundred rows, value for value |
| WriterContents.NormalMeans | src/omero_data_query_worker/engines.py:250-263 | A normalised value is what the value stands for: a list item by item, a dictionary one member a key in the order keys first come with the value of the last pair of the key, a blob an object with its base64 text |
| Writer.FailureIsPrefix | src/omero_data_query_worker/engines.py:42-49 | On failure the file is empty or the header and the whole lines before the failing row, within both limits, and the reason is the row's |
| Writer.NormalIsProper | src/omero_data_query_worker/engines.py:250-263 | Normalised values have no name twice in any object, whatever keys collide as texts |
| Writer.NormalFixes | src/omero_data_query_worker/engines.py:250-263 | Normalising leaves proper JSON as it is |
| Writer.WrittenRecovers | src/omero_data_query_worker/engines.py:325-334 | An entry with the reported length and digest passes recovery |
| Upload.CopyUpload | src/omero_data_query_worker/service.py:186-213 | What is written are the first k chunks, reserved and within the maximum; it ends there as cancelled, too large, or refused by the first of these that meets the next chunk, or, all chunks being copied, with the wrong size, the wrong digest or success; it succeeds if and only if undisturbed and the whole upload has the declared size, fits and matches the digest |
| Upload.UploadSpool.Receive | src/omero_data_query_worker/upload.py:54-68 | The parser is given bytes only once they are within the limit and reserved |
| Upload.UploadSpool.Send | src/omero_data_query_worker/upload.py:70-77 | After a failure the client is sent one rejection and nothing else |
| Execution.ExecuteInSubprocess | src/omero_data_query_worker/executor.py:67-121 | The wait ends at the first poll that is readable, interrupted or past the deadline. Readable and undisturbed it delivers the answer if and only if the child sent one, and the limit, the timeout or the failure if and only if the child sent that; nothing readable is a timeout or, if monitor raised, that; whatever the exit, the child no longer runs, unless it outlived SIGKILL, which is an exit of its own |
| Execution.Process.Stop | src/omero_data_query_worker/executor.py:124-136 | SIGTERM if and only if the child does not end by itself, then SIGKILL if and only if it outlives that; it is left running, with an exception, if and only if it outlives both |
| Execution.AcquireRecoveryLock | src/omero_data_query_worker/operations.py:106-117 | The lock is taken if and only if some attempt succeeds before which no failed attempt came at or after the deadline |
| Execution.WaitIsBounded | src/omero_data_query_worker/executor.py:96-103 | No wait outlasts its deadline by more than a poll |
| JsonText.ReadStringBack | src/omero_data_query_worker/service.py:325-326 | A quoted text reads back as itself with adjacent surrogates fused |
| JsonText.QuotedEqualIff | src/omero_data_query_worker/service.py:325-326 | Two texts have one quoted form if and only if they are equal once surrogate pairs are fused |
| JsonText.FuseFixes | src/omero_data_query_worker/service.py:325-326 | Fusing changes a text if and only if it holds a surrogate pair |
| JsonText.PairsCollide | src/omero_data_query_worker/service.py:325-326 | Two different texts with one quoted form |
| JsonValues.ParseBack | src/omero_data_query_worker/cache.py:275-282 | Reading a written value, wherever it may stand, gives it back |
| JsonValues.CanonicalBack | src/omero_data_query_worker/cache.py:48-51 | A canonical text reads back as its value with members sorted |
| JsonValues.CanonicalEqualIff | src/omero_data_query_worker/service.py:325-326 | Two values have one canonical text if and only if they differ in the order of members only |
| JsonValues.OrderFree | src/omero_data_query_worker/service.py:305-308 | The canonical text does not depend on the order in which members were inserted |
| JsonValues.SortedTwice | src/omero_data_query_worker/cache.py:48-51 | Sorting members is idempotent |
| Rereading.MembersMove | src/omero_data_query_worker/cache.py:48-51 | A preview row that does not read back to the letter |
| Rereading.RereadTwice | src/omero_data_query_worker/cache.py:376-380 | Reading a record back once is reading it back any number of times |
| Keys.KeyTextIff | src/omero_data_query_worker/service.py:299-326 | Two keys are hashed from one text if and only if scope, digests, format, SQL, typed parameters, versions and limits agree, whatever the order of parameters |
| Keys.SourceIdInjective | src/omero_data_query_worker/cache.py:257-260 | On admitted scopes the joined text determines scope and reference |
| Keys.NulCollides | src/omero_data_query_worker/cache.py:257-260 | Without the pattern on scopes it does not |
| Manifests.SourceManifestBack | src/omero_data_query_worker/cache.py:97-132 | A source manifest parsed from the text written is the record, nested members sorted |
| Manifests.ResultManifestBack | src/omero_data_query_worker/cache.py:153-190 | A result manifest parsed from the text written is the record, nested members sorted |
| Manifests.SourceTouchesOnlyStamps | src/omero_data_query_worker/cache.py:300-304 | Rewriting a source manifest any number of times changes the two stamps only |
| Manifests.ResultTouchesOnlyStamps | src/omero_data_query_worker/cache.py:376-380 | Rewriting a result manifest any number of times changes the two stamps only |
| ManifestFiles.SourceFileRead | src/omero_data_query_worker/cache.py:275-282 | The bytes written for a source record read back as the manifest the model has: record, stamps, scope and source id |
| ManifestFiles.ResultFileRead | src/omero_data_query_worker/cache.py:275-282 | The bytes written for a result record read back as the manifest the model has, the preview's members sorted |
| ManifestFiles.SourceTouch | src/omero_data_query_worker/cache.py:300-304 | Rewriting the file of a source is the touch of the model: new stamps, all else and the number of other bytes as before |
| ManifestFiles.ResultTouch | src/omero_data_query_worker/cache.py:376-380 | Rewriting the file of a result is the touch of the model: new stamps, all else and the number of other bytes as before |
| ManifestFiles.SourceEntryBytes | src/omero_data_query_worker/cache.py:44-45 | The size of a source entry in the model is the bytes of its manifest file and of its other files |
| ManifestFiles.ResultEntryBytes | src/omero_data_query_worker/cache.py:44-45 | The size of a result entry in the model is the bytes of its manifest file and of its other files |

## Left out

- HTTP routing, disconnect watching, response headers, credentials, metrics, command line, configuration
  parsing and deployment files: plumbing around the protocol.
- DuckDB, SQLite, sqlglot, the policy's tree walk and CSV conversion: parameters of the model. `csv.writer`
  quoting is the function `encode` from cells to an optional line.
- SHA-256 is an ideal digest that carries its preimage; UUIDs are numbers that never repeat; times are integers.
- `utc_now` is read once in each locked section of the model; the code reads it again before a touch and for
  each cleanup. An expiry that falls between the two readings is not distinguished.
- The hit, miss, bypass and eviction counters, except that `CacheManager` counts an eviction for each removal.
- Symbolic links, permissions, sub-directories inside entries and I/O errors other than as an exception at a
  program point. On the disk an entry is its top-level files.
- `cleanup_temporary` while the service runs: it removes only directories that no thread has registered.
- Bytes that an engine writes between two polls of its monitor: quotas are about reservations.
- Manifests of earlier versions: a lookup may lengthen them by more than two stamps. The quota theorems are
  about entries that this version published; lookups and recovery are modelled for any manifest.
- A manifest whose time stamp has no zone makes comparisons raise outside the handled errors; the model has
  readable and unreadable stamps only. `from_dict` applied to lists of pairs where objects are meant, which
  `dict()` accepts, is modelled as an error.
- Directory listings inside the steps of `Service` are arbitrary, which allows more than the program does;
  theorems that need them complete say so.
- Resource limits and the cleaned environment of engine children, and
  platforms without `flock` or parent-death signals.
- `Together` ties names, records, scopes, sources and data of cache and disk; the time stamps on the disk are not
  tied to those of the cache, and a removal stops half-way only in a death there.
- Cancellation of a request in the await of `purge` or of a lookup that keeps nothing: nothing is held there.
- Threads of an engine's service: the parent-death signal is tied to the thread that started the child, which
  waits for it; the model ties it to the process.
- CrashSafety.CommittedSurvives: an entry that a recovery kept after a mere process death (no power loss) and
  that was never synchronised counts as committed only after a later power loss has been recovered from,
  because recovery does not synchronise what it keeps. A recovery that is itself killed is a mere death too.
- ServiceHistory.PurgeIsFinal: within one life of the process, because removals are not synchronised and a
  restart may bring purged entries back, as `Incarnations.RemovalIsFinalIff` says.
- ServiceHistory.BindingIsImmutable: within one life of the process; `Lifetimes.BindingLasts` has the deaths.
- ServiceHistory.QuotaAlways: maximum plus 14 bytes an entry, which `Shortfalls.TouchExceedsQuota` shows to be
  needed, and without what `CountsTwiceIff` says is counted twice.
