# Verification of a shared NuGet package store

These Dafny modules model the server that stores NuGet packages once and serves
them from many feeds, and prove what its protocols promise. The centre is the
package store as a machine: pushes, overwrites, purges, sweeps, attachments,
transfers and feed removals are sequences of storage and database calls, any of
which may fail, interleaved under keyed locks while administrators change flags.
Around it stand the symbol store, the locks themselves, the retention planner
and several compact algorithms, each proved against a plain statement of what it
is for.

Operations that change state step by step are classes and methods whose
contracts give the whole new state; what spans several operations is proved
about state machines over all their runs. Where the code does not keep what its
comments say, the modules keep the code as it is, prove exactly when the promise
holds and give a run in which it does not.

| modules | contents |
|---|---|
| `Store`, `Operations`, `Server` | what is stored, each operation as the calls it makes, and the interleaving of tasks under version and blob locks with flags changing at any moment |
| `StoreInvariants`, `StoreTheorems`, `FileTheorems`, `StoreUndo`, `StoreProgress`, `StoreTermination`, `CleanupTheorems`, `FlagTheorems`, `MarkTheorems`, `FileDrops`, `BlobLeak` | what holds in every run of that machine, and exactly when what does not always hold does |
| `Traces`, `Indexing`, `Sweeps`, `Fingerprint`, `Retention` | the same operations call by call on mutable state: a push with its undo, the purges, the sweeps, a feed's removal, a cleanup of what was shown |
| `Symbols`, `SymbolTheorems`, `SymbolPush` | symbol pushes and purges interleaved under key locks, and one push in full |
| `LockOrder`, `LockNames`, `LockRegistry`, `Lexical` | the order of locks, the strings they are registered under, and the registry that sweeps dead entries |
| `Planner`, `PlannerTheorems` | the retention planner |
| `PeImage`, `PeScan`, `PeWitness`, `Pdb`, `Binary` | the two-pass reader of PE debug directories and the Portable PDB reader |
| `Space`, `SpaceGuard` | admission of writes to a volume |
| `RateLimit` | the rate limiter and the choice of the client address |
| `FileTree`, `BackupCopy`, `BackupPrune` | copying a tree and removing what it no longer has |
| `Reserved` | reserved id prefixes of feeds |
| `License`, `SpdxTables` | license expressions against allow and deny lists |
| `Options`, `Ascii` | an optional value; ASCII case and space |

Check all of it with `dafny verify dfyconfig.toml`.

## Model

| member | source | states |
|---|---|---|
| StoreInvariants.StepKeeps | src/indexing.rs:182-372 | every single storage or database call of every operation, succeeding or failing, keeps the store invariants while all other tasks stand anywhere: locks exclusive, each task's knowledge of its locked version and blob true, rows before members, held versions settled or mid-overwrite, their file blobs stored |
| StoreInvariants.RunKeeps | src/locks.rs:1-12 | the same invariants after any run: any number of tasks, interleaved call by call, any pattern of failures, flags changed at any moment |
| StoreInvariants.OnlyOwnReferences | src/retention.rs:439-447 | a blob counted at most as often as the version's own file rows reference it is referenced by no other version, so the purge may delete it |
| StoreTheorems.HeldVersionsAreIntact | src/indexing.rs:192-371 | in every run every version some feed holds has its row, its payload and the blobs of its attached files, and whenever no operation has it locked the row's hash is the payload's hash, unless an overwrite logged that it could not restore |
| MarkTheorems.AFailedRestoreLeavesOtherBytes | src/indexing.rs:535-559 | the exception is real: a run from the empty server after which a version that a feed holds is at rest and its row does not describe its bytes, because an overwrite could neither keep the previous payload aside nor write its sidecars |
| MarkTheorems.PushingAgainDoesNotHeal | src/indexing.rs:335-348 | such a run after which a push of exactly the content the row describes has succeeded and other bytes are still served: the push only looks at whether a payload is there |
| StoreTheorems.OnlyAFailedRestoreMarks | src/indexing.rs:515-559 | the exception above arises in one place only: a restore that fails, or has nothing kept aside |
| StoreTheorems.BytesRowAndFilesAreOneBuild | src/indexing.rs:335-371 | with every push under pending-only, whenever no operation has a held version locked, its bytes, its row and every attached file belong to one build |
| StoreTheorems.OnlySuchPushesChangeTheRow | src/indexing.rs:278-299 | in every run the row of a version that feeds hold changes only by a push into a feed that holds it, under pending-only while no feed approves the version, or under another mode into the only feed that holds it |
| StoreTheorems.AnApprovedBuildNeverChanges | src/database/mod.rs:455-473 | an approval in a feed whose pushes are under pending-only stands under whatever modes other feeds have, and wins over an overwrite at whatever step it lands: from then on, for as long as the feed holds the version, the row stays that of the build it describes at the approval, files that all belong to that build stay so, and whenever the version is free again the served bytes are that build |
| StoreTheorems.AnApprovedBuildIsOneBuild | src/database/mod.rs:455-473 | with every push under pending-only the attached files are the approved build's as well |
| StoreTheorems.AnApprovedBuildStaysServed | src/indexing.rs:515-559 | seen from a free version, the served bytes are one build at both ends |
| FileTheorems.AnApprovalHoldsTheFiles | src/web/hosted.rs:282-315 | from an approval that finds the version unlocked, and for as long as it stands, the version's attached files stay exactly what they are, under every overwrite mode and in every interleaving, when every attach and detach is bound by that approval |
| StoreUndo.AFirstPushIsAllOrNothing | src/indexing.rs:222-242 | whichever calls of a first push fail, when those of its undo succeed: the version is recorded with its payload; or untouched, exactly when the payload could not be stored; or left with a payload and no rows, exactly when the sidecars could not; or nothing of it is left |
| StoreUndo.AnOverwriteIsAllOrNothing | src/indexing.rs:486-559 | whichever calls of an overwrite fail, when the previous payload is kept aside and put back: the rows are swapped, exactly when payload and sidecars were stored and the swap neither failed nor was refused, or the version is exactly as it was |
| StoreProgress.SomeTaskCanStep | src/locks.rs:84-98 | in every state the invariants allow, if some task of the store is unfinished then some task can make its next call: version and blob locks never deadlock |
| StoreProgress.EveryStepIsProgress | src/retention.rs:432-450 | every call, succeeding or failing, brings its own task strictly closer to its end and leaves every other task where it is |
| StoreTermination.EveryTaskFinishes | src/locks.rs:84-98 | from every reachable state, as long as no task is added and whatever flags change meanwhile: all tasks together make at most a number of calls that the state determines, every run that cannot be extended has finished them all, and every run can be extended to one that has |
| StoreTermination.StepWithin | src/retention.rs:432-450 | each call lowers the weight of all tasks together, though attaches add file rows that later loops go over |
| BlobLeak.NothingIsLeftExactly | src/retention.rs:425-450 | for any number of tasks on different versions, none begun, of every kind that can drop references (purges, cleanups, feed removals, orphan sweeps, pushes, detaches), whatever files their versions have: in every interleaving in which all calls succeed, every blob that was referenced ends deleted or referenced, if and only if no stored blob has all its references dropped by them, some but not all by a task that counts references before it drops its own |
| BlobLeak.TwoPurgesCanLeakABlob | src/retention.rs:432-450 | so two purges that share a blob can leave it behind |
| BlobLeak.APurgeAndADetachCanLeakABlob | src/web/hosted.rs:500-550 | so can a purge and a detach of the other reference |
| BlobLeak.APurgeAndAReplacementCanLeakABlob | src/indexing.rs:349-371 | so can a purge and an overwrite that replaces a pending build and drops its files |
| BlobLeak.WithoutErasingNothingIsLeft | src/indexing.rs:408-427 | detaches and overwrites alone leave nothing behind: they drop their references first and count then |
| FileDrops.LocalDropsOnce | src/retention.rs:412-450 | which file rows a task will drop is determined by its version and where it stands, and it drops all of them in one call |
| CleanupTheorems.CleanupsSpareExactlyBeforeTheirCheck | src/retention.rs:276-300 | a membership that is pinned, disabled or pending survives every continuation in which only cleanups touch it if and only if no cleanup is already past its check of that membership; the comment promises it always |
| CleanupTheorems.APinCanComeTooLate | src/web/admin.rs:934-949 | a run from the empty server after which a version is pinned and the very next call of a cleanup deletes it: pinning takes no version lock |
| CleanupTheorems.WithheldStays | src/retention.rs:291-299 | with no cleanup past its check, no number of further cleanup steps changes a withheld membership |
| CleanupTheorems.AnUnlockedVersionIsNotPastCheck | src/retention.rs:284-300 | with the version's lock free no cleanup is past its check, so a flag change that took the lock would never come too late |
| FlagTheorems.FlagsStandExactly | src/indexing.rs:300-313 | a listing, disable or pin on a membership outlives every continuation in which only pushes could change it if and only if no push into that feed has read other flags and will write them back; the comment promises it always |
| FlagTheorems.APushCanUndoAPin | src/indexing.rs:300-333 | a run from the empty server after which a version is pinned, and the next call of a push succeeds and leaves it unpinned |
| FlagTheorems.AnUnlockedVersionHasNoStalePush | src/indexing.rs:182-186 | with the version's lock free there is no such push, so a flag set under that lock would stand |
| Indexing.LockedVersion.IndexInner | src/indexing.rs:182-372 | one push under its version's lock, any call failing: success records the pushed build, and its bytes are what is served unless the version was held with a row of that very content over other bytes; failure leaves a held version exactly as it was (or recorded, when only the last call failed); other versions are untouched; the row of a held version changes only when the overwrite policy allows it; and its calls are, in order and outcome, those of the machine's push |
| Traces.ATraceIsARun | src/locks.rs:70-98 | the calls of an operation that runs from its first call to its last are a run of the machine in which nobody else is at work |
| Indexing.LockedVersion.IndexNew | src/indexing.rs:222-242 | a version new to the server ends with payload, row and membership, or held by nobody and without row |
| Indexing.LockedVersion.IndexJoin | src/indexing.rs:249-272 | a feed joins a version others hold only with the same content; a missing payload is put back; nothing else changes |
| Indexing.LockedVersion.IndexOver | src/indexing.rs:274-313 | the overwrite modes decide; the listing, disable and pin written are those the push has read, and new bytes in a gated feed are pending again |
| Indexing.LockedVersion.ReplaceBuild | src/indexing.rs:335-371 | the same bytes refresh the rows only; other bytes replace the build and free the blobs of dropped files that nothing references |
| Indexing.LockedVersion.Overwrite | src/indexing.rs:486-559 | success: new payload and swapped rows; failure at any call: rows as before and the previous payload back, or the version marked as not restored |
| Indexing.LockedVersion.Replace | src/indexing.rs:387-406 | the swap happens exactly as the transaction promises or not at all, and never when the version is approved somewhere or another feed's policy blocks the new build |
| Indexing.LockedVersion.PurgeFileBlobs | src/retention.rs:432-450 | deletes exactly the blobs that only this version references; a failure deletes a part of them; files of all other versions stay stored |
| Indexing.LockedVersion.PurgeGlobalData | src/retention.rs:397-423 | leaves nothing of the version, or, on failure, the rows that say what is left to delete |
| Indexing.LockedVersion.DeleteUnreferencedBlobs | src/indexing.rs:408-427 | deletes only blobs among those given that no file row references |
| Sweeps.Sweeper.SweepUnreferencedBlobs | src/retention.rs:367-395 | never deletes a referenced blob; without errors exactly the referenced blobs are left; the count returned is what went |
| Sweeps.Sweeper.PurgeLocked | src/retention.rs:303-317 | removes one membership, and everything of the version with the last one; a failure leaves one of three named states |
| Sweeps.Sweeper.PurgePlanned | src/retention.rs:284-300 | does nothing to a membership that is gone, pinned or withheld when it is read; removes any other, unless a call fails |
| Sweeps.Sweeper.SweepOrphans | src/retention.rs:326-357 | touches only listed versions no feed holds; without failures none of those keeps a row |
| Sweeps.Sweeper.RemoveFeed | src/feed_data.rs:76-95 | drops the feed's memberships and nothing of the other feeds; versions nobody holds any more lose their global data |
| Sweeps.Sweeper.RemoveMember | src/feed_data.rs:82-90 | the same for one member |
| Symbols.StepKeeps | src/symbols.rs:320-420 | every call of every symbol push and purge keeps: key and version locks exclusive, claims still to be made unowned, claims made owned, bytes under a row verified for its owner or being settled |
| SymbolTheorems.ARowKeepsItsOwner | src/symbols.rs:371-390 | in every interleaving a symbol row changes owner never, is created only by a push that has its key locked, for that push's version and a file verified for it, and goes only by a task of its owner |
| SymbolTheorems.OneOwnerFromClaimToDeletion | src/symbols.rs:329-335 | over any run during which the row stays, its owner and the file its claimer verified are the same at the end as at the start |
| SymbolTheorems.ServedBytesWereVerified | src/symbols.rs:371-404 | bytes under a row that nobody is settling, and whose claim no undo failed to take back, were verified by a push of the version that owns the row |
| SymbolTheorems.PublishedBytesNeverChange | src/symbols.rs:345-366 | published bytes may be deleted but are never replaced by different ones |
| SymbolTheorems.ServedBytesAreTheClaimers | src/symbols.rs:371-404 | in any run, where the owner's pushes have not verified two different files for a key, what is served under a settled, released claim is what the claimer and each of them verified |
| SymbolTheorems.ClaimsAreServedExactly | src/symbols.rs:345-404 | over any set of files that pushes may be of: in every run what is served under a settled row whose claim was not left behind is the file its claimer verified, if and only if no version has two different files for one key in the set |
| SymbolTheorems.ClaimsAreAlwaysServedExactly | src/symbols.rs:345-420 | with claims that could not be released and in every state: if and only if no two files of the set, whatever their versions, differ under one key |
| SymbolTheorems.AnotherPushCanFillIn | src/symbols.rs:349-358 | for any two different files of one key and version, a run with every claim released and every task done after which the second is served under the row the first claimed: a purge dropped the bytes and failed before the row |
| SymbolTheorems.AnUnreleasedClaimServesOthers | src/symbols.rs:405-420 | for any two versions with a file for one key, a run after which the row of the second, which its undo could not take back, serves the bytes of the first, which an earlier undo could not delete |
| SymbolPush.Collect | src/symbols.rs:200-307 | refused exactly when a file does not match the package or two files of one key differ; otherwise each matched file once, in ascending key order, with the skipped ones counted |
| SymbolPush.SymbolStore.Decide | src/symbols.rs:337-369 | writes nothing; a plan exists only if no file conflicts with what is published, and says for each file whether it is new, unchanged or to be put back |
| SymbolPush.SymbolStore.StoreAll | src/symbols.rs:322-404 | all or nothing for whichever call fails: everything published; or nothing changed and, for a conflict, some file that conflicts; or, once the undo worked, rows as before and served bytes as before but for missing bytes of this version's own claims put back |
| SymbolPush.SymbolStore.Push | src/symbols.rs:167-184 | the same for the whole push, ending with the symbol package |
| SymbolPush.SymbolStore.Release | src/symbols.rs:409-420 | best effort: removes only what it is given, and all of it when every call works |
| LockOrder.OperationsAreDisciplined | src/locks.rs:84-98 | every operation takes its locks in one order, cleanup, then versions, then symbols ascending, then one blob at a time, and ends holding none |
| LockOrder.NoDeadlock | src/symbols.rs:329-335 | in every reachable state of any number of such operations, failing at any point, some unfinished one can go on |
| LockOrder.UnsortedTasksCanDeadlock | src/web/admin.rs:603-615 | for any two locks, two tasks that take them in opposite orders reach a state in which neither can go on, which is what the sorting is for |
| LockNames.OneNamePerLock | src/locks.rs:70-107 | two locks are registered under one string exactly when they are the same lock: of one kind and equal up to ASCII case |
| LockNames.ASymbolPushLocksInOrder | src/symbols.rs:329-335 | the files a push collected give ascending locks with pairwise different names, so it never waits for itself |
| LockRegistry.OneMutexPerKey | src/locks.rs:44-51 | after any sequence of acquires and releases all live handles of a key are of one mutex, and the next acquire hands out that one |
| LockRegistry.OneKeyPerMutex | src/locks.rs:39-52 | what an acquire hands out is live and serves the asked key, and no mutex ever changes its key |
| LockRegistry.TheMapStaysSmall | src/locks.rs:35-43 | the map never exceeds its threshold, and all sweeps together scan at most twice as many entries as were ever inserted |
| LockRegistry.Locks.AcquireLock | src/locks.rs:39-52 | the in-place acquire: new state and handle are those of the specification the three lemmas above are about |
| LockRegistry.Locks.Sweep | src/locks.rs:40-43 | past the threshold exactly the live entries stay |
| LockRegistry.Locks.ReleaseLock | src/locks.rs:19-22 | dropping a guard gives up one handle and nothing else |
| PeScan.ReadDebugDirectory | src/pe.rs:130-142 | for every byte string and declared length it ends after one or two passes and never reads out of range; it finds what random access finds if and only if the file is well laid out (headers in file order, record data disjoint) or there is nothing to find |
| PeWitness.OverlappingRecordsAreNotRead | src/pe.rs:239-285 | a file of 360 bytes whose two records have the same data: random access reads its debug directory, the forward reader answers that there is none |
| PeScan.SecondPassExactly | src/pe.rs:105-125 | with records in bounds and apart, the second pass happens exactly when a record that is read starts before the end of the directory |
| PeScan.FitsExactly | src/pe.rs:239-285 | one forward pass over sorted records reaches all of them if and only if they lie in the file, apart from each other, and ahead of it |
| PeScan.PassesFind | src/pe.rs:105-125 | the first pass answers with what the two passes together find, or the second does |
| PeScan.CollectsInBounds | src/pe.rs:239-285 | reading records directly succeeds exactly when every record that is read lies in the file |
| PeScan.Forward.ReadAt | src/pe.rs:306-333 | the bytes at the offset when they lie ahead, in the file and in the stream, else nothing; `behind` is set exactly for data in the file that this pass has gone past |
| PeScan.LocateDirectory | src/pe.rs:149-211 | finds the place of the directory that direct reading finds, unless the PE header lies inside the DOS header |
| PeScan.LocateRecords | src/pe.rs:213-234 | the sorted records that direct reading finds when the headers are in order, else nothing |
| PeScan.ReadRecords | src/pe.rs:239-285 | the records' content exactly when a forward pass fits them, else nothing, with `behind` telling whether only the position was to blame |
| PeScan.DebugDirectoryScan.RunPass | src/pe.rs:105-125 | one pass: asks for another at most once, and then with the located records pending |
| PeImage.RecordsAreSorted | src/pe.rs:216-234 | the records come in the order of their data in the file |
| Space.TheReserveIsKept | src/space.rs:128-198 | at every write of an admitted upload, in every interleaving of atomic steps, the free space covers the reserve and all admitted shares, up to what was written between one admission's measurement and decision and what was written beyond declared sizes |
| Space.TheReserveIsKeptExactly | src/space.rs:166-198 | with each check atomic and writes within their size the reserve is kept to the byte |
| Space.TheReserveIsKeptExactlyThen | src/space.rs:128-198 | over all runs with at most so much written between a measurement and its decision and at most so much beyond declared sizes: no write takes the free space below the reserve if and only if both are zero and no admission is decided without a measurement |
| Space.TheReserveCanBeMissedBy | src/space.rs:166-198 | the bound is tight: for every slack and every excess up to the reserve there is a run whose last write misses the reserve by exactly their sum |
| Space.ABlindAdmissionKeepsNothing | src/space.rs:182-198 | a run in which a volume that cannot be measured is written full by an upload within its size |
| Space.TheTotalIsTheSum | src/space.rs:248-289 | at every atomic step the promised total is the sum of shares held and shares being released (modulo 2^64), and zero once every upload has ended |
| Space.SharesAreTheirOwn | src/space.rs:272-281 | one upload's step takes nothing off another's share |
| Space.RunKeeps | src/space.rs:347-363 | the invariant behind these: counted total, covered claims, measurements too high by at most what was written since |
| SpaceGuard.Reservations.ReserveShare | src/space.rs:252-262 | a share of the capped size, added to the total |
| SpaceGuard.Reservation.Consumed | src/space.rs:272-281 | takes off the share and the total what was written, never more than the share |
| SpaceGuard.Reservation.Dropped | src/space.rs:284-289 | gives back what is left |
| SpaceGuard.DiskReserve.PollWrite | src/space.rs:307-363 | a measurement that is due is waited for without writing, and ends the copy exactly when it shows less than the reserve; what is written counts towards the next measurement and comes off the share and the promised total, never more than the share |
| SpaceGuard.CopyThrough | src/space.rs:291-363 | over any sequence of polls: while no measurement shows as much as the reserve, fewer bytes than one interval go through before any write that still does; the share and the promised total give up exactly what was written, as far as the share holds |
| RateLimit.SweepingChangesNoAnswer | src/ratelimit.rs:100-107 | for every clock that never goes back the sweeping limiter answers every sequence of requests like one that never forgets |
| RateLimit.AtMostTwicePerInterval | src/ratelimit.rs:89-122 | it admits at most twice the limit per client in any interval of one window's length, for every sequence of requests |
| RateLimit.BucketsCountTheirWindow | src/ratelimit.rs:108-121 | a bucket's count is exactly what was admitted since its window began, at most the limit, and nothing was admitted in it after the window ended |
| RateLimit.RefusalsAreEarned | src/ratelimit.rs:116-118 | a refused request finds the whole limit admitted within the last window |
| RateLimit.OneBudgetPerSubscriber | src/ratelimit.rs:126-140 | two addresses share a budget exactly when they are one IPv4 client, mapped or not, or lie in one IPv6 /64 |
| RateLimit.RateLimiter.Check | src/ratelimit.rs:89-122 | the in-place check: answer and new state are those of the specification above |
| RateLimit.RateLimiter.IsExhausted | src/ratelimit.rs:77-87 | true exactly when a check at that moment would refuse |
| RateLimit.ClientIp | src/ratelimit.rs:166-205 | the address read from the right past trusted proxies only: the first untrusted one, or the last hop before an entry that does not parse or the end |
| BackupCopy.CopyTree | src/backup.rs:639-738 | ends for every tree; afterwards every file that belongs in the copy is there, copied or left alone as the mode says, everything else is as before but for new directories, and the files seen, the files copied and the counts and bytes of both are exact |
| BackupCopy.CopyDirectory | src/backup.rs:685-736 | one directory's entries, in whatever order they are listed |
| BackupCopy.CopyEntry | src/backup.rs:695-732 | one entry: a directory is queued once, a file copied or left alone, anything else skipped |
| BackupPrune.Prune | src/backup.rs:770-804 | leaves exactly the files to keep, and only directories that lead to one; never removes a file to keep even when a call fails; the count returned is exact |
| BackupPrune.Walk | src/backup.rs:773-798 | below one directory only what holds a file to keep stays, and `empty` says whether anything did |
| BackupPrune.Mirror | src/backup.rs:277-289 | a copy and a pruning leave exactly the source's files, each with its size and time, and with its bytes if and only if it was copied or already had them; the number copied is exactly the files that differed |
| BackupPrune.MirrorTwice | src/backup.rs:653-662 | a second pass over an unchanged store copies nothing and changes nothing the first had made |
| Pdb.PrintedRootIsParsed | src/pdb.rs:145-181 | every printed metadata root, whatever follows it, is parsed to the offset of its first `#Pdb` stream, or to none |
| Pdb.ParsedRootIsThere | src/pdb.rs:145-181 | whatever the input, an offset is only found behind a signature, a version string and the headers of other streams, within the number of streams the root gives |
| Pdb.PdbStreamOffset | src/pdb.rs:145-181 | the loop computes the specification the two lemmas above are about |
| Pdb.NameIsRead | src/pdb.rs:184-198 | a stream name of at most 31 bytes of UTF-8 without NUL that stands there with its NUL is read, and so is the space it takes with its padding |
| Pdb.ReadNameIsThere | src/pdb.rs:184-198 | whatever is read as a name is of that form and stands there |
| Pdb.ReadStreamName | src/pdb.rs:186-198 | the loop finds the first NUL among 32 bytes or nothing |
| Pdb.ReadPdbId | src/pdb.rs:69-95 | the id is what the file holds at the offset of the `#Pdb` stream its headers name, and that offset is returned with it, wherever the stream lies; none exactly when the headers name none or the file is too short |
| Pdb.HashWithoutId | src/pdb.rs:114-141 | for every way the reader splits the file into chunks, what is hashed is the file with the 20 id bytes zeroed |
| Planner.PrunePlan | src/retention.rs:140-212 | the ranking loops compute the plan the lemmas below are about |
| PlannerTheorems.PlanCounts | src/retention.rs:140-212 | a version is planned if and only if it is servable, unpinned, not the one that must survive, and its count of newer ranked versions or its age is over the limit |
| PlannerTheorems.PlanIgnoresOrder | src/retention.rs:140-212 | the plan as a set does not depend on the order of the input |
| PlannerTheorems.PrunePlanIsIdempotent | src/retention.rs:140-212 | planning what the plan left, in any order, plans nothing |
| PlannerTheorems.TheHeadlineSurvives | src/database/mod.rs:203-241 | the version a package is shown with, of those a client can get, is never planned |
| PlannerTheorems.ALimitedChannelKeepsN | src/retention.rs:153-211 | of a limited channel the plan leaves at most N unpinned servable versions, or one when N is zero and it holds the survivor; without an age limit exactly as many, or all |
| PlannerTheorems.RaisingLimitsPlansNothingNew | src/retention.rs:140-205 | raising or dropping a limit, or exempting more ids, never plans a version that was not planned |
| PlannerTheorems.PinningPlansNothingNew | src/retention.rs:153-211 | pinning a version takes it off the plan and adds none |
| PlannerTheorems.WithholdingPlansNothingNew | src/retention.rs:153-211 | withholding a version takes it off the plan and adds none |
| PlannerTheorems.WithheldVersionsDoNotCount | src/retention.rs:153-211 | withheld versions, however many come in and wherever, change neither the planned versions nor their reasons |
| Fingerprint.FingerprintsIdentifyPlans | src/retention.rs:646-660 | two plans have one fingerprint if and only if they plan the same keys, in whatever order |
| Fingerprint.KeysAreVersions | src/retention.rs:648-652 | two keys are equal if and only if the versions are |
| Retention.RetentionState.RunShown | src/retention.rs:812-830 | the plan is computed again from the feed; nothing is deleted while a cleanup runs or when its fingerprint is not the one sent back; when it runs, every version of every plan with that fingerprint was one the rules may delete, so one pinned, withheld or removed since the page was shown means that nothing runs; and of all other versions only flags change, those that others set meanwhile |
| Retention.ThePlanIsPrunable | src/retention.rs:673-728 | whatever the planner plans over a feed's versions is in the feed, enabled, approved and not pinned |
| Retention.Preview | src/retention.rs:673-728 | the loops compute the plan of every id of the feed that the lemma above is about |
| Retention.RetentionState.Apply | src/retention.rs:733-744 | with flags changing between any two deletions: a version that at its turn is pinned, withheld or no member keeps everything, and without errors exactly the other planned ones are gone from the feed |
| Reserved.ResolvedFeeds | src/config/feeds.rs:345-460 | succeeds if and only if every feed's prefixes are valid, its promotion targets exist, names differ and no two feeds' reservations overlap; then each feed, or the one default feed when none is configured, carries all the others' reservations |
| Reserved.ReservedIdsHaveOneFeed | src/config/feeds.rs:419-446 | after a success an id under a reservation is accepted by the owner and refused by every other feed, and an id under none is refused by none |
| Reserved.OverlapIsACommonId | src/config/feeds.rs:430-443 | the overlap test is exact: two reservations overlap if and only if some id is under both |
| Reserved.AnyOverlap | src/config/feeds.rs:430-443 | the nested loops find an overlap exactly when there is one |
| Reserved.AllReservations | src/config/feeds.rs:421-429 | the list holds every feed's reservations and nothing else |
| Reserved.CheckEach | src/config/feeds.rs:345-404 | the per-feed checks pass exactly when all prefixes are valid and names differ |
| License.ExpressionEvaluatesItsTree | src/policy.rs:81-103 | without parentheses an expression is allowed if and only if it is itself a rule or the OR-of-ANDs tree whose printed form it is has an alternative all of whose terms some rule allows, whatever the case of the operators and the space around them |
| License.ADenyRuleFindsItsLicence | src/policy.rs:393-433 | a deny rule that is one id matches an expression, however parenthesised, if and only if it is the expression, or some term is of its family, with whatever version form and exception, or has it as exception |
| License.RelaxingKeepsAccepting | src/policy.rs:38-65 | growing a non-empty allow list and shrinking the deny list never refuses or flags what was accepted |
| License.AllowRulesAreOrdered | src/policy.rs:187-200 | allow rules are a partial order: a rule admits itself, and everything that a term it admits would admit as a rule, and two rules admit each other only when they are one licence with one exception |
| License.VersionFormsAreOneFamily | src/policy.rs:203-229 | the plain and `+` forms of any id, deprecated or not, are one family, and `+` means `-or-later`; an explicit `-only` or `-or-later` form is of that family if and only if the id names the family of the licence it stands for |
| SpdxTables.GnuFormsAreOneFamily | src/policy.rs:203-243 | for each GNU licence of the SPDX table, whose plain id is a deprecated spelling: plain, `+`, `-only` and `-or-later` are one family, the plain form means `-only` and the `+` form `-or-later` |
| SpdxTables.AnIdAloneHasAKnownException | src/policy.rs:232-300 | an id by itself, deprecated or not, is never refused for the exception it implies: it implies none or a known one |
| License.GroupsOfInterleaved | src/policy.rs:106-125 | splitting on an operator what was put together with it gives the parts back |
| License.SplitOperator | src/policy.rs:106-125 | the loop gives the non-empty groups of words between operators, joined |
| License.MatchesLicense | src/policy.rs:393-433 | the loop answers as the specification that the deny lemma is about |
| License.WordsOfJoined | src/policy.rs:106-125 | joining words with spaces loses nothing |

## Left out

- Store.Digest: a hash is a free constructor over what it hashes; that two contents never share a SHA-512 or SHA-256 is assumed by that, and the fingerprint's cut to 16 bytes likewise.
- Store contents: sidecar files (nuspec, readme, icon), tombstones, license flags, download counters and timestamps are not kept; the calls that write sidecars are steps that can fail. Symbol rows are a machine of their own, not part of the store's.
- Server.Do: database transactions and storage renames are single steps that succeed or fail without effect, as src/database/mod.rs documents them; a process that dies in the middle of an operation, damage from outside and readers that look at files during an operation are not modelled.
- Operations.Job: the loops of sweeps, cleanups and feed removals are one task per element in the machine, which allows more interleavings than the loops; the loops themselves are in `Sweeps` and `Retention`. Bulk approval takes part only in `LockOrder`; in the store machine an approval is a flag change without a lock, which allows more.
- StoreTheorems.HeldVersionsAreIntact: renaming a feed and the mirror's read-through pushes, whose single-flight code is not part of this model, are left out.
- StoreTheorems.AnApprovedBuildNeverChanges: the served bytes are judged once the version is free, since an overwrite replaces them before the rows and puts them back when the swap refuses; and with a restore that failed, which is logged, they are not judged.
- CleanupTheorems.CleanupsSpareExactlyBeforeTheirCheck: the comment above `purge_planned` says its check cannot go stale before the delete because it is made under the version lock. Pinning, disabling and bulk flag changes other than approval take no version lock, so it can; the code is modelled as it is.
- BlobLeak.NothingIsLeftExactly: is about calls that succeed, tasks that have not begun and one task per version, since tasks of one version take turns under its lock; a failed count or deletion of a blob leaves it to the sweep as the code says, attaches and the sweep itself are left out of it, and flags do not change during such a run.
- FlagTheorems.FlagsStandExactly: the comment at src/indexing.rs:300-303 says that a push cannot undo an administrator's disable or unlist and that a pin outlives the replacement. A push writes back what it read, and setting these flags takes no version lock; the code is modelled as it is.
- SymbolTheorems.ServedBytesWereVerified: excludes claims that an undo logged it could not release; `AnUnreleasedClaimServesOthers` is the run that shows why, and `ClaimsAreAlwaysServedExactly` when the exclusion is not needed.
- SymbolPush.SymbolStore.StoreAll: runs with its keys' locks held, so other tasks' steps are in `Symbols`, not here; the stored package, extraction and the size limits of PDB entries are left out, and matching one PDB against its assembly is the given result of `PeScan` and `Pdb`.
- LockRegistry.Locks: handles are counted instead of being heap references, and the registry's own mutex makes each call one step.
- Retention.Preview: the sizes a plan frees, the dates and the pinned versions a page shows are left out; flags that change between reading the feed and the first deletion count as landing before that deletion.
- LockOrder.NoDeadlock: says that some task can go on, not which; fairness of the async runtime is outside the model.
- PeScan.Forward.ReadAt: an error of the stream other than its end is left out.
- Space.Do: other programs writing to the volume are left out; a volume that cannot be measured and a promised total past 2^64 are admitted blind as in the code, and the theorems then promise nothing.
- RateLimit.SweepingChangesNoAnswer: a clock that goes back between two requests is outside it; parsing addresses and header lines is given.
- BackupCopy.CopyTree: the source does not change during the pass; the temporary file beside each copy is not in the tree, and syncing and progress output are left out.
- backup.rs: the database snapshot, `verify` and the retry loop over passes are left out: with a source that changes between the snapshot and the copy, `verify` accepts an older copy that the pruning then removes.
- Pdb.HashWithoutId: the hash function itself, the GUID's hexadecimal form and I/O errors are left out.
- Planner.PrunePlan: versions are compared by an order number with a pre-release flag; parsing version strings, the text of a reason and reading the clock are left out.
- Reserved.ResolvedFeeds: names, reserved prefixes and promotion targets of a feed's configuration; whether its other settings are valid is one flag.
- License.Words: whitespace is ASCII whitespace, and case is ASCII case as in the code; violations carry a kind, not their text.
- HTTP handlers, authentication, the mirror client, the web pages, the command line and TLS are left out: input, output and presentation.
