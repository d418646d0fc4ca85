# walrusd: a verified model of the commit protocol

walrusd keeps SQLite databases on a plain object store. Writers take turns under
a compare-and-swap lease with expiry; each write flushes one LTX file and then
indexes it in a durable manifest; a background worker merges files upward
through levels while writers append. This project models that protocol and the
in-process state around it, and proves what it keeps over every run.

`dafny verify dfyconfig.toml` checks the whole project.

## How the model is laid out

- **Levels, CompactionPass, PassOrder, CompactionOrder, CompactionLoss, Listing** are
  about sets of files: what a merge covers, what a pass publishes, when the level
  order survives, how it breaks, and why a level-by-level listing is complete.
- **Database, DatabaseInvariant, DatabaseSteps, DatabaseLandings,
  DatabaseCompaction, DatabaseSafety** are one step system and what holds over all
  its runs: write attempts of any number of runtimes, tail and dedup repair, one
  compaction pass at a time, source deletion and garbage collection. Every remote
  call is a send, a landing that may never happen, and a confirmation, so every
  crash point and every lost reply is a run. An attempt that is retried is a new
  attempt with the same key.
- **DatabaseDurability, DatabaseStacked, DatabaseOrder, DatabaseLoss** are what it
  takes for nothing to be lost, and a run in which something is.
- **DatabaseProgress** is what an attempt can always do by itself: a retry of a
  landed key is acknowledged, and a new write is carried through.
- **Lease, LeaseInvariant, LeaseSafety, LeaseFence, LeaseStaleness** are a second
  step system: the CAS lease of one key with renewals, lost replies, crashes and
  per-process clocks.
- **World, WorldDurability, WorldProgress** run the two side by side and show that
  every joint run is a run of Database whose lease order is the order of writes the
  lease store accepted, and that a write succeeds whenever the lease can be taken.
- **Manifest, ManifestDocument, Replica, Compaction, CompactionRun, LeaseStore,
  FileCache, CachingClient, ReadCache, Registry, Wakeup, Backoff** are the code
  that changes things in place: loops and classes, each proved against the sets,
  passes and lists above. In Registry and Wakeup each method is one critical
  section of the mutex, so an interleaving is a sequence of calls.
- **Wrappers** holds the option and result types.

## Hypotheses

- The lease store mints a token it has never minted before (`Lease.LandStep`,
  `token !in minted` in LeaseStore).
- A PUT lands while its sender is still the last acquirer of the lease, or never
  (`Database.LandStep`, `Database.PassLandStep`). The code concedes that an
  unconfirmed flush may still land. `World.UnstaleSenderIsTenant` shows that the
  fence check implies this rule at the moment of the check.
- Compaction passes on one database do not overlap, from the snapshot to the last
  deletion, and no pass starts while an earlier pass's manifest PUT can still land
  (`Database.PassStartStep`). The code reads the snapshot before it takes the
  compaction lease.
- Garbage collection spares level-0 files above the manifest it read: they are
  younger than the retention window.
- Listings are fresh where the manifest is rebuilt.
- A database opens only if every TXID up to its plan's highest is in a file of the
  plan that the store holds (`Database.Reads`). Refusing a plan with a hole is up to
  Litestream, which is foreign code. After a loss, at-most-once and what a flush has
  seen rest on this refusal.
- For the fence only: each clock is monotone and any two differ by at most twice
  the skew allowance.

At most once, one TXID per key, the order of TXIDs and of acknowledgements, and
what a flush has seen are proved for every run (`DatabaseSafety`, `World`). Only
durability needs more. There are three conditions on runs, each implying the one
above it; the first two restrict nothing about repairs:

- `DatabaseDurability.Sound`: each publish leaves every TXID up to the manifest's
  highest in a listed file that survives the deletions, and each merge is without a
  hole. The second half is what the foreign compactor produces (litestream/compact.go,
  line 16); the first is what the code does not check.
- `DatabaseStacked.StartsStacked`: each pass starts on a manifest that is stacked
  (below) over its surviving files.
- `DatabaseOrder.Regular`: passes use one threshold, and a manifest rebuilt over an
  existing one lands only while no pass is merging or publishing, only stacked, and
  only within the threshold above level 0. A run in which a repair would land
  otherwise is not regular; the two conditions above are for those.

## Where compaction loses acknowledged TXIDs

The specification (docs/specs.md, line 105) says that a pass deletes files "whose whole TXID range a higher
level covers". The code retires every file of the source level whose MaxTXID is at
or below the merge's, without looking at its range. In a *stacked* set that is
safe: each file lies above all higher levels, or is a leftover that starts at or
below the next level's end and whose TXIDs higher levels hold.

A manifest rebuilt from a listing may hold leftovers. A pass that skips a level at
or under the threshold and merges the next one empties the level above a leftover.
The leftover is then merged again, across the end of a higher level, and a later
merge passes that file over but retires it.

- `CompactionLoss.CompactionLosesTxids` is a history from the empty replica at
  threshold 3: writes, passes that delete some of their own sources, one flush that
  is never indexed, the repair that finds it, and passes again. TXIDs 21 to 23 end
  up in no file. One pass of it deletes its level-0 sources and not its level-1
  sources, which are older. The code deletes by one age cutoff, so that needs a
  deletion batch that stops half-way.
- `DatabaseLoss.AcknowledgedWritesAreLost` is that history as a run of the step
  system: 22 and 23 are acknowledged and then held by no object.
- `PassOrder.PassStackedIff` says exactly when a pass over a stacked manifest leaves
  a stacked set: under each of its merges, the level below the source level holds
  only live files. `Levels.MergeStackedIff` is the same for one merge, and
  `Levels.MergeConservesIff` says, with no assumption on the set, when one merge
  keeps every covered TXID.
- `DatabaseDurability.PublishSafeIff` says exactly when a publish is safe, and
  `DatabaseDurability.UnsafePublishLoses` that any other leaves a landed TXID in no
  listed file that survives.

## Where a pass does not settle

A pass retires the files of a merged level that end at or below the merge. A file
that starts at or below the next level's end and ends past the merge is neither read
nor retired. `CompactionPass.HalfMergedAsksAgain` gives five files on which, at
threshold 2, a pass that meets nothing unmergeable leaves three such files, so that
`ManifestNeedsCompaction` stays true of the updated and of the published list.
`CompactionPass.PastIsNeverRead` says that no later pass reads them while the merge
is listed. `CompactionPass.UpdatedSettlesIff` and
`CompactionPass.PublishedSettlesIff` say, for any set, exactly when a pass settles:
no level was over the threshold with nothing new to merge, and of each merged level
no more than threshold files end past its merge; the published list counts the
level's own merge too. Tidy and stacked manifests leave no such files.

## Model

| member | source | states |
|---|---|---|
| `DatabaseSafety.ExactlyOnce` | runtime/runtime.go:537-594 | in every run, whatever repairs and passes do, each idempotency key's mutation lands at most once, and every acknowledgement of a key names the one TXID where it sits |
| `DatabaseDurability.AcknowledgedStaysDurable` | runtime/runtime.go:628-708 | in every sound run an acknowledged TXID stays, with its own mutation, in the store and in the manifest's existing files through every later write, repair, merge, publish, deletion and collection |
| `DatabaseDurability.PublishSafeIff` | runtime/runtime.go:945-963 | a publish leaves every TXID in a listed file that survives exactly when each TXID of each file it retires, up to the manifest's highest, is in such a file |
| `DatabaseDurability.UnsafePublishLoses` | runtime/runtime.go:945-963 | any other publish leaves a landed TXID in no listed file that survives the deletions |
| `DatabaseDurability.StoreStaysComplete` | runtime/runtime.go:732-804 | in every sound run every landed TXID is still in the store |
| `DatabaseDurability.NextComplete` | runtime/runtime.go:596-971 | every sound step keeps each TXID up to the manifest's highest in a surviving listed file; a repair needs no condition |
| `DatabaseSafety.GapFree` | runtime/runtime.go:732-804 | in every run landed TXIDs are 1..n without a gap, and the manifest misses at most the last |
| `DatabaseSafety.FlushSawEverything` | runtime/runtime.go:628-655 | a flush that lands was decided on a view of exactly the TXIDs landed before it, each with its own key; it lands right after them, under a key that had not landed |
| `DatabaseSafety.MissSawAll` | runtime/runtime.go:647-680 | a lease holder that decides to write has every landed TXID in its view |
| `DatabaseSafety.AcksFollowReleases` | runtime/runtime.go:838-851 | new TXIDs are acknowledged in the order in which their leases were released |
| `DatabaseDurability.ManifestStaysReadable` | runtime/runtime.go:939-970 | in every state of a sound run, deletion and collection included, each TXID up to the manifest's highest is in a file it lists and the store holds |
| `DatabaseDurability.RebuildMissesNothing` | litestream/manifest.go:498-520 | a lease holder's level-by-level rebuild lists an existing file for every landed TXID, whatever sound steps run beside it |
| `DatabaseSafety.NextKeeps` | runtime/runtime.go:596-852 | every step of writers, compaction and collection keeps the invariant |
| `DatabaseSafety.HistoryGrows` | runtime/runtime.go:838-851 | acknowledgements are never withdrawn, and landed flushes and acquisitions never change |
| `DatabaseLandings.LandKeeps` | runtime/runtime.go:756-827 | a flush or a manifest PUT landing at any later time keeps the invariant |
| `DatabaseLandings.TailIsSafe` | litestream/compact.go:159-173 | a flushed file not yet indexed is never among the files deletion or collection may remove |
| `DatabaseStacked.PublishedCovers` | runtime/runtime.go:945-963 | for a pass that started stacked, the published manifest, less the sources about to be deleted, covers all the manifest covered, cascades included |
| `DatabaseStacked.MergeHasNoHole` | litestream/compact.go:50-76 | the merges of such a pass leave no hole |
| `DatabaseStacked.PublishSound` | runtime/runtime.go:941-963 | the publish of such a pass is sound, whatever landed beside it |
| `DatabaseStacked.StackedStartsAreSound` | runtime/runtime.go:895-971 | if every pass starts on a stacked manifest, the run is sound; repairs may land anything at any time |
| `DatabaseCompaction.PassMergeKeeps` | litestream/compact.go:50-76 | a merge beside running writers keeps the invariant |
| `DatabaseCompaction.PassLandKeeps` | runtime/runtime.go:941-963 | the delta applied to the re-read manifest keeps the invariant when it lands |
| `DatabaseCompaction.DeleteOneKeeps` | litestream/compact.go:128-178 | deleting any one source or garbage file keeps the invariant |
| `DatabaseSteps.OpenKeeps` | runtime/runtime.go:647-655 | opening on the manifest plan, or on the listing of a legacy replica, keeps the invariant |
| `DatabaseProgress.RetryIsAcknowledged` | runtime/runtime.go:674-708 | an attempt that holds the lease and finds its key in the view it opened reaches, by its own steps, an acknowledgement that is deduplicated and names the TXID where the key sits; nothing lands, and the manifest stays if it lists that TXID and is rebuilt from the listing otherwise |
| `DatabaseProgress.WriteCanSucceed` | runtime/runtime.go:596-852 | from any state in which the surviving listed files hold all they should, a new attempt left alone is acknowledged: with the old TXID if its key had landed, otherwise with the next one, landed once and listed |
| `DatabaseProgress.GetsReady` | runtime/runtime.go:623-827 | the same from the first read to the point of releasing, with tail repair, migration and dedup repair |
| `DatabaseProgress.MigrationIsBestEffort` | runtime/runtime.go:820-827 | a legacy replica whose first manifest cannot be written still acknowledges the write |
| `DatabaseProgress.GarbageCanGo` | litestream/compact.go:151-178 | after a publish a collection can remove any unlisted object but level-0 files above the manifest, and nothing else changes |
| `DatabaseProgress.AnythingMayFail` | runtime/runtime.go:596-971 | the faults the steps admit: an attempt fails at any point, a pass stops while merging or dies with its PUT under way |
| `DatabaseSteps.LookupKeeps` | runtime/idempotency.go:21-35 | both outcomes of the idempotency lookup keep the invariant |
| `DatabaseSteps.DedupKeeps` | runtime/runtime.go:685-707 | acknowledging a retry re-reads the manifest, or repairs it first, and keeps the invariant |
| `World.JointRunRefines` | runtime/runtime.go:596-852 | every joint run of the lease and the database is a run of the database; the CAS protocol yields the lease order it relies on, with any clocks |
| `World.JointExactlyOnce` | runtime/runtime.go:506-594 | over every joint run an acknowledged key has, in every later state, landed exactly once, at the TXID every acknowledgement of it names |
| `WorldDurability.AcknowledgedForEver` | runtime/runtime.go:506-594 | over every sound joint run an acknowledged write is, in every later state, in the store and in a listed file |
| `World.AckHadTheLease` | runtime/runtime.go:838-851 | an acknowledgement follows a tenure that nobody interrupted from acquisition to release |
| `World.UnstaleSenderIsTenant` | runtime/runtime.go:976-981 | while leaseStale is false the holder is still the last acquirer |
| `WorldProgress.JointWriteCanSucceed` | runtime/runtime.go:596-852 | in every state of a sound joint run, if the lease is absent, released or safely expired on the caller's clock, a new attempt left alone takes it, writes or finds its key, releases and is acknowledged |
| `WorldProgress.PassCanPublish` | runtime/runtime.go:941-963 | a holder of the write lease that is the last acquirer publishes a finished pass as the re-read manifest less sources plus merges |
| `LeaseFence.UnstaleLeaseIsOurs` | runtime/runtime.go:787-792 | if leaseStale is false, no other acquisition has been accepted since this one |
| `LeaseStaleness.StaleIff` | runtime/runtime.go:976-981 | with any clocks, leaseStale is true exactly when a renewal was refused or unanswered since the last accepted write, or the holder's clock is within the skew allowance of the reading that write was computed from plus the duration |
| `LeaseStaleness.WasAccepted` | lease/lease.go:398-450 | every holder's record goes back to an acquisition or renewal that was computed, sent and accepted, and it is marked lost exactly by a later refusal or silence |
| `LeaseFence.FenceHolds` | lease/lease.go:340-349 | from one unexpired write of the holder on, every accepted write is the holder's: the two skew margins exceed the clock distance |
| `LeaseFence.RunKeepsClocks` | lease/lease.go:415-450 | with monotone clocks, renewals within a tenure never lower the stored expiry, and every takeover saw an expired record |
| `LeaseFence.LocalExpiryIsNoLater` | lease/lease.go:415-450 | while the stored record is held under a holder's lease ID, with monotone clocks the expiry the holder reads locally is never above the stored one |
| `LeaseSafety.ReleaseWasUninterrupted` | lease/lease.go:471-496 | if Release returned nil, nobody else's write was accepted since the acquisition, with any clocks |
| `LeaseSafety.StaleHolderCannotOverwrite` | lease/lease.go:436-448 | a renewal or release is accepted only directly after a write of the same tenure |
| `LeaseSafety.EpochIsGeneration` | lease/lease.go:352-363 | the stored epoch counts the acquisitions; renewals and releases keep epoch, owner and lease ID |
| `LeaseSafety.HeldExpiryIsCapped` | lease/lease.go:398-450 | no held record expires later than its acquisition time plus three durations |
| `LeaseSafety.WedgedLeaseIsTakeable` | lease/lease.go:322-350 | past the cap and the skew allowance the next attempt acquires |
| `LeaseSafety.AnythingMayFail` | lease/lease.go:398-507 | the faults the lease steps admit: calls go unanswered, attempts die, clocks move anywhere |
| `LeaseInvariant.NextKeeps` | lease/lease.go:322-507 | every lease step keeps the invariant of log, wire and holders |
| `LeaseStore.AcquireRuns` | lease/lease.go:322-404 | an acquisition is get, decide, land and reply of the interleaved model in one go, with the same cell and the same holder |
| `LeaseStore.RenewRuns` | lease/lease.go:415-450 | a renewal below the cap is tick, land and reply in one go; on a moved token the holder is marked lost and stops |
| `LeaseStore.ReleaseRuns` | lease/lease.go:471-496 | a release is send, land and reply in one go |
| `LeaseStore.MemoryStore.Get` | lease/memory.go:28-36 | the record and its token, or not found |
| `LeaseStore.MemoryStore.CreateIfAbsent` | lease/memory.go:38-47 | writes exactly when the key is absent and touches no other key |
| `LeaseStore.MemoryStore.ReplaceIfToken` | lease/memory.go:49-63 | writes exactly when the token matches; the replaced token never matches again; both errors leave the store alone |
| `LeaseStore.AcquireOnce` | lease/lease.go:322-404 | acquires exactly when the record is absent, released or expired by more than the skew allowance, with the next epoch and the renewal cap |
| `LeaseStore.RenewTick` | lease/lease.go:415-450 | renews exactly when below the cap, reachable and with a matching token, and then only the expiry and the token change; is marked lost exactly on a moved token or an unreachable store below the cap; otherwise stops and changes nothing |
| `LeaseStore.Release` | lease/lease.go:471-496 | releases exactly when the token still matches, keeping epoch and lease ID; otherwise changes nothing |
| `Levels.MergeKeepsCoverage` | litestream/compact.go:112-122 | a merge over a stacked set loses no TXID although sources are chosen by level and MaxTXID only |
| `Levels.RetiredIsCovered` | litestream/compact.go:114-118 | a TXID of a retired file is in the merge or in a kept file at or above the destination |
| `Levels.MergeExact` | litestream/compact.go:59-69 | the merged range invents no TXID: it is what its sources cover |
| `Levels.MergeEmptiesSource` | litestream/compact.go:112-122 | a merge over a stacked set empties its source level |
| `Levels.MergeStackedIff` | litestream/compact.go:50-76 | one merge keeps the level order exactly when the level below its source level holds no leftover |
| `Levels.MergeConservesIff` | litestream/compact.go:112-122 | for any set, one merge keeps coverage exactly when each file retired unread is covered by the merge or by what stays |
| `CompactionPass.DeltaConserves` | litestream/manifest.go:147-167 | a delta computed on a stacked snapshot and applied to any later manifest covers the same TXIDs, also after the sources are deleted |
| `CompactionPass.PassConserves` | litestream/compact.go:106-124 | a pass loses no TXID and its sources stay covered by what it leaves |
| `CompactionPass.PublishedIsUpdatedPlusIntermediates` | litestream/compact.go:106-124 | on an unchanged manifest the published set is the updated set plus the merges retired in the same pass |
| `CompactionPass.UpdatedIs` | litestream/compact.go:106-124 | replaying the merges retires exactly the files some merge names by level and MaxTXID |
| `CompactionPass.UpdatedSettlesIff` | litestream/compact.go:50-124 | for any set, no level of the updated set is over threshold exactly when the pass met no level over threshold with nothing to merge and no more than threshold files of a merged level end past its merge |
| `CompactionPass.PublishedSettlesIff` | runtime/runtime.go:930-954 | the same of the published set, in which a merged level's own merge counts as well |
| `CompactionPass.UnstuckIff` | litestream/compact.go:55-64 | a pass meets no such level exactly when every level, its merges included, is merged upward or within the threshold |
| `CompactionPass.HalfMergedAsksAgain` | litestream/compact.go:112-122 | five files on which an unhindered pass at threshold 2 leaves both sets over threshold |
| `CompactionPass.PastIsNeverRead` | litestream/compact.go:59-69 | a file that ends past the merge of its level is not a candidate while that merge is listed |
| `CompactionPass.PassSettles` | litestream/compact.go:85-100 | so a pass that was never stuck and left no level half merged leaves no level of either set over threshold |
| `CompactionPass.TidyDrains` | litestream/compact.go:59-69 | no level is left half merged when in each level a file that starts later does not end earlier |
| `CompactionPass.StackedDrains` | litestream/compact.go:59-69 | nor when the manifest is stacked |
| `PassOrder.Merges` | litestream/compact.go:50-76 | while levels above 0 start within the threshold, a level fires only after the one below was emptied into it, so no merge of the pass uncovers a leftover |
| `PassOrder.Skips` | litestream/compact.go:55-64 | a level the pass leaves alone is within the threshold: one that overflowed has new files to merge |
| `PassOrder.Publishes` | runtime/runtime.go:945-955 | a finished pass applied to a manifest that writers appended to publishes a manifest stacked over what survives the deletions, within the threshold above level 0 |
| `PassOrder.PassStackedIff` | litestream/compact.go:106-124 | a pass over a stacked manifest leaves a stacked set exactly when, under each of its merges, the level below the source level holds only live files |
| `CompactionOrder.PassHolds` | litestream/compact.go:106-124 | what was retired stays held above its own level through the rest of a pass |
| `DatabaseOrder.NextOrdered` | runtime/runtime.go:895-971 | every step of a regular run keeps manifest and pass in order, orderly repairs included |
| `DatabaseOrder.RegularRunIsSound` | runtime/runtime.go:895-971 | in a regular run every pass starts on a stacked manifest, so the run is sound |
| `WorldDurability.RegularRunIsSafe` | runtime/runtime.go:506-594 | over every regular joint run an acknowledged write stays durable in every later state |
| `CompactionOrder.SourcesCoveredAbove` | litestream/compact.go:128-146 | every source of a pass ends up covered strictly above its own level |
| `CompactionLoss.CompactionLosesTxids` | litestream/compact.go:112-122 | a history from the empty replica, of passes at threshold 3 with deletions of their own sources and one repair, after which TXIDs 21 to 23 are in no file |
| `DatabaseLoss.HistoryRuns` | runtime/runtime.go:596-971 | every such history is a run of writers and compaction in which every write that did not die is acknowledged |
| `DatabaseLoss.AcknowledgedWritesAreLost` | litestream/compact.go:112-122 | there is a run, with every turn decided by the threshold, after which the acknowledged TXIDs 22 and 23 are in no object and in no listed file |
| `Listing.ScanMissesNothing` | litestream/manifest.go:498-520 | an ascending scan beside any writes and any deletions covered higher up collects every TXID covered when it began |
| `Listing.PassDeletionsClimb` | litestream/compact.go:128-146 | a pass's deletions are such deletions, in any order |
| `Manifest.ApplyManifestDelta` | litestream/manifest.go:147-167 | the list is base less deleted plus written, sorted, without new duplicates, base metadata kept |
| `Manifest.ManifestContains` | litestream/manifest.go:169-176 | membership by level and range |
| `Manifest.ManifestMaxTXID` | litestream/manifest.go:125-133 | the highest TXID of the listed files |
| `Manifest.ManifestHasTXID` | litestream/manifest.go:136-143 | true exactly for covered TXIDs |
| `ManifestDocument.EncodeManifest` | litestream/manifest.go:58-82 | a version-1 document holding a sorted permutation of the non-nil infos |
| `ManifestDocument.DecodeManifest` | litestream/manifest.go:85-122 | accepts exactly version 1 with valid entries, and keeps the first entry of each range, sorted |
| `ManifestDocument.RoundTrip` | litestream/manifest.go:58-122 | what was encoded is decoded: accepted exactly when every file is storable, one original info per range, all of them when no range repeats |
| `Replica.MemoryReplica.LTXFiles` | litestream/memory.go:62-84 | exactly the stored files of a level from seek on, once each |
| `Replica.MemoryReplica.OpenLTXFile` | litestream/memory.go:88-108 | the requested window, or not-exist |
| `Replica.Window` | litestream/memory.go:96-107 | the bytes from the offset on, as many as asked for or as there are |
| `Replica.MemoryReplica.WriteLTXFile` | litestream/memory.go:111-132 | stores the object unless its header is unreadable |
| `Replica.MemoryReplica.DeleteLTXFiles` | litestream/memory.go:135-142 | removes exactly the named files |
| `Replica.MemoryReplica.TailTXID` | litestream/manifest.go:476-496 | the highest TXID of level 0 |
| `Replica.MemoryReplica.BuildManifest` | litestream/manifest.go:500-520 | exactly the stored files of levels 0 to 9, once each |
| `Compaction.ManifestClient.LTXFiles` | litestream/manifest.go:206-218 | exactly the snapshot's files of a level from seek on |
| `Compaction.ManifestClient.WriteLTXFile` | litestream/manifest.go:220-230 | an accepted write is listed and recorded; a refused one changes nothing |
| `Compaction.ManifestClient.DeleteLTXFiles` | litestream/manifest.go:232-241 | deleted files leave the replica and the listing and are recorded |
| `Compaction.CompactLevel` | litestream/compact.go:59-69 | merges exactly the files above the destination's highest TXID, or reports that there are none |
| `Compaction.CompactWithClient` | litestream/compact.go:37-77 | without a failure the level loop performs exactly one pass over the snapshot at the configured threshold, or at 1 when that is not positive, and deletes nothing |
| `CompactionRun.CompactManifest` | litestream/compact.go:106-124 | the new active set and the sources are those of the pass at the configured threshold, or at 1 when that is not positive |
| `CompactionRun.Retire` | litestream/compact.go:111-123 | replaying the merges over the active set gives the pass's updated set and sources |
| `CompactionRun.ManifestNeedsCompaction` | litestream/compact.go:85-100 | true exactly when some level below 8 holds more than threshold files, or more than 1 when the threshold is not positive; missing entries do not count |
| `CompactionRun.NeedsIffUnbalanced` | litestream/compact.go:85-100 | on a list without duplicates, that is the negation of balance of its set |
| `CompactionRun.CompactionSettlesIff` | litestream/compact.go:85-124 | exactly when the updated and the published list of any pass ask for no other |
| `CompactionRun.HalfMergedListsAsk` | litestream/compact.go:85-124 | any lists of those five files and of what their pass leaves ask again at threshold 2 |
| `CompactionRun.CompactionSettles` | litestream/compact.go:85-124 | after an unhindered pass over a manifest that is stacked or tidy in each level, neither the updated nor the published list asks for another |
| `CompactionRun.DeleteFiles` | litestream/compact.go:128-146 | exactly the named files whose age has reached the retention go; a negative retention counts as zero |
| `CompactionRun.CollectGarbage` | litestream/compact.go:151-178 | exactly the unreferenced files of levels 0 to 9 whose age has reached the retention go, and each is one the step system lets a collection remove while the unindexed tail is younger |
| `FileCache.Cache.Get` | litestream/range_cache.go:65-74 | a hit moves the key to the front |
| `FileCache.Cache.Put` | litestream/range_cache.go:76-99 | a new entry evicts as few least recently used entries as make the rest fit, never itself; the byte count stays exact and within the limit |
| `FileCache.Cache.Drop` | litestream/range_cache.go:101-111 | removes one key, byte count exact |
| `FileCache.Cache.DropDB` | litestream/range_cache.go:114-125 | removes exactly one database's entries |
| `CachingClient.Client.LTXFiles` | litestream/range_cache.go:157-187 | lists what the replica lists, cached or not; a listing of levels above 0 is kept for the TTL and refreshed after it |
| `CachingClient.Client.OpenLTXFile` | litestream/range_cache.go:216-252 | the replica's bytes for every window from zero on; a negative start is out of range exactly when files are cached; a file of at most 8 MiB that fits ends up cached, most recently used |
| `CachingClient.Client.WriteLTXFile` | litestream/range_cache.go:254-275 | writes as the replica does and keeps cache and listings true; the written file ends up cached likewise |
| `CachingClient.Client.DeleteLTXFiles` | litestream/range_cache.go:277-285 | deletes as the replica does and keeps cache and listings true |
| `CachingClient.Client.DeleteAll` | litestream/range_cache.go:287-295 | empties the replica, the database's entries and the listings |
| `CachingClient.Client.DropListings` | litestream/range_cache.go:204-208 | forgets every listing |
| `CachingClient.FilterFrom` | litestream/range_cache.go:189-200 | keeps exactly the infos from seek on |
| `CachingClient.Run` | litestream/range_cache.go:157-295 | every answer of any sequence of operations through the cache is one the bare replica would give at that point |
| `ReadCache.Cache.Get` | cache/cache.go:70-92 | a hit is refreshed, an idle entry is closed and missed; recency and closed-once are kept |
| `ReadCache.Cache.Put` | cache/cache.go:96-138 | replaces the key's session or the least recently used one, and no session is closed twice or cached closed exactly when the new one is neither cached nor closed |
| `ReadCache.Cache.Evict` | cache/cache.go:141-153 | removes and closes the key's session, and keeps recency and closed-once |
| `ReadCache.Cache.Close` | cache/cache.go:156-177 | closes every session once, least recently used first |
| `ReadCache.Cache.Len` | cache/cache.go:180-184 | list and map have the same length: observer adds minus removes |
| `ReadCache.Run` | cache/cache.go:70-177 | over any sequence of operations the sessions handed over are, one for one, those cached and those closed; under a clock that does not go back the cache is in order of last use |
| `ReadCache.HandedOverOnce` | cache/cache.go:96-153 | if no session was handed over twice, none is closed twice and none that is cached has been closed |
| `Registry.Runtime.Database` | runtime/runtime.go:248-302 | the resident entry or a new one at the front; a new one pushes out the least recently used residents, as few as the limit asks; nothing when closed; no entry is ever forgotten |
| `Registry.Runtime.ReleaseDatabase` | runtime/runtime.go:306-318 | an evicted entry becomes due exactly when its last holder leaves |
| `Registry.Runtime.TeardownDatabase` | runtime/runtime.go:323-328 | nobody holds the entry and it was not torn down before |
| `Registry.Runtime.Close` | runtime/runtime.go:331-366 | no entry stays resident; each resident nobody holds becomes due and the others wait for their holders; none is forgotten |
| `Registry.NeverTornInUse` | runtime/runtime.go:306-328 | in every interleaving a torn-down or due entry has no holder, and teardowns are distinct |
| `Registry.NothingLeaks` | runtime/runtime.go:331-366 | closed, released and drained, exactly the entries ever made, by number, have been torn down |
| `Wakeup.Manager.Join` | lease/lease.go:202-211 | a caller's flight is the one in the map |
| `Wakeup.Manager.WaitChannel` | lease/lease.go:301-306 | captures the flight's open channel |
| `Wakeup.Manager.Leave` | lease/lease.go:216-222 | the last caller takes the flight out |
| `Wakeup.Manager.Release` | lease/lease.go:484-495 | an accepted or conflicting release closes the captured channel of every local waiter on the key and of nobody else |
| `Wakeup.NotifyWakes` | lease/lease.go:310-317 | notifying wakes exactly the waiters of the key |
| `Wakeup.MapIsBounded` | lease/lease.go:214-222 | the map holds a key exactly while somebody is in its flight |
| `Backoff.RetryStep` | lease/lease.go:269-291 | min times two to the attempt, capped, without 64-bit overflow |
| `Backoff.StepDoubles` | lease/lease.go:269-291 | the first step is the configured minimum or 25 ms, and each next one is the double up to the configured maximum or 500 ms |
| `Backoff.RetryDelay` | lease/lease.go:269-297 | the wait is drawn evenly from the upper half of the step and lies inside the configured bounds |
| `Backoff.Jitter` | lease/lease.go:510-520 | the drawn value inside its bounds, the lower one when the random source fails or the range is empty |
| `Backoff.WithDefaults` | runtime/retry.go:36-54 | the zero policy without a budget; otherwise each field as configured, or its default where it is unusable |
| `Backoff.BaseDelay` | runtime/retry.go:57-76 | for every policy: the cap once some multiplication has reached it, otherwise the capped power |
| `Backoff.BaseDelayGrows` | runtime/retry.go:57-76 | with a multiplier of at least one the wait is the capped power, later retries never wait less and none more than the cap |
| `Backoff.DelaysRiseIff` | runtime/retry.go:36-76 | for a policy as the defaults leave it, later retries never wait less exactly when the multiplier is at least one or the first multiplication is at the cap |
| `Backoff.Delay` | runtime/retry.go:80-99 | the jittered base delay or a longer hint, capped: at least four fifths of the base delay and at most six fifths unless the hint wins |

## Left out

- DatabaseDurability.AcknowledgedStaysDurable: asks `Sound` of every publish, because the code does not check it and `DatabaseLoss.AcknowledgedWritesAreLost` shows a run without it.
- DatabaseDurability.StoreStaysComplete: for sound runs, for the same reason.
- DatabaseDurability.ManifestStaysReadable: for sound runs, for the same reason.
- DatabaseDurability.RebuildMissesNothing: for sound runs, for the same reason.
- DatabaseDurability.NextComplete: for sound steps; `DatabaseDurability.UnsafePublishLoses` is what any other publish does.
- WorldDurability.AcknowledgedForEver: for sound joint runs, for the same reason.
- DatabaseOrder.RegularRunIsSound: excludes repairs that land unstacked, over threshold above level 0, or beside a pass that is merging or publishing; such runs can lose acknowledged TXIDs, and `DatabaseStacked.StackedStartsAreSound` is for the ones that do not.
- DatabaseOrder.NextOrdered: the same exclusion.
- WorldDurability.RegularRunIsSafe: the same exclusion.
- CompactionPass.PassSettles: asks that no level is left half merged; the two if-and-only-ifs beside it ask nothing.
- CompactionRun.CompactionSettles: asks for a tidy or stacked manifest; `CompactionRun.CompactionSettlesIff` asks nothing.
- SQLite, the Litestream VFS, page contents and the idempotency table's SQL: an open session is a view from TXID to key, a pending commit and a flush to position plus one; the recorded TXID is the position of the key in that view.
- Redis, S3 and file stores: one atomic CAS cell and one GET/PUT manifest cell stand for all of them.
- JSON bytes, record format checks, random generation and UUIDs: abstract records and fresh values.
- Lease.DecideStep: reads the clock once, where the code reads it for the expiry test and again for the new record.
- Backoff.BaseDelay: computes over the reals; floating-point rounding and truncation to nanoseconds are not modelled.
- Compaction.CompactWithClient: models the runtime's path, which leaves deletion to the caller; the standalone Compact that deletes sources as it goes is not modelled.
- Compaction.CompactLevel: Litestream's compactor is foreign code, modelled as the merge its use relies on; the bytes of the merge are a parameter.
- Replica.MemoryReplica: one database's prefix; the process-wide map shared by prefixes is not modelled. Its comment says listings ascend by TXID, while the code lists in map order; the model promises no order.
- CachingClient.Run: calls one at a time; a fetch racing a rewrite of the same file is not modelled.
- ReadCache.Cache: calls one at a time; the clock is read once per call.
- The outer retry loop's budget, the compaction worker pool, metrics, error classes and texts, language bindings and the C interface: plumbing around the protocol.
- TXIDs are unbounded, where the code has 64 bits.
