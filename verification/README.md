# A verified model of the Drive pool

The repository stores a user's files on several Google Drive accounts at once. A file is
cut into chunks; each chunk is placed on an account, compressed if that helps, encrypted
and uploaded by a bounded set of workers, and then recorded in a relational manifest.
Reading reverses this. Around the pool there is a small peer-to-peer file store, a
content-addressed directory tree and a web backend that connects accounts.

This project models that logic in Dafny and proves what it promises.

| file | models |
|---|---|
| `Prelude.dfy` | bytes, ids, concatenation and tallies |
| `Ctr.dfy` | `storage/crypto.go`: counter mode through a reused buffer and arbitrary reads |
| `Codec.dfy` | cutting, compressing, sealing and checking one chunk |
| `Placement.dfy` | `drivepool/placement.go`: the one-shot choice and the budget tracker |
| `Manifest.dfy` | the tables of all users, their constraints and cascades |
| `Drive.dfy` | the remote accounts: fresh ids, objects in folders, folder delete |
| `Upload.dfy` | the upload half of `PutStream` as a step relation over its workers |
| `Download.dfy` | `GetStream` as a step relation over its workers and its writer |
| `Ledger.dfy` | the invariant between manifest, accounts, pool and file contents; the view as a map |
| `Putting.dfy`, `Getting.dfy`, `Removing.dfy`, `Leaving.dfy` | what each pool operation needs and keeps |
| `Outcome.dfy` | exactly what a put leaves behind |
| `Pool.dfy` | the `Pool` class with its operations |
| `Session.dfy` | whole runs of commands against a plain map |
| `CasStore.dfy` | `storage/store.go` |
| `P2P.dfy` | the framing of a peer connection, `Store` and `Get` |
| `Oauth.dfy` | the pending-consent table |
| `Witness.dfy` | concrete runs of the failures below, and a suite that meets the assumptions |

How to read it. Workers are events on a value (`Enabled`, `Apply`); a method such as
`Upload.RunUploads` executes an arbitrary enabled event until none is left, so its contract
speaks of every schedule. What surrounds an operation is a parameter: quota answers, how
many bytes the reader yields, and which calls fail. A remote call that fails may have taken
effect: uploads and folder creations in a lossy put, deletes always. That each may fail at any
moment is stated too (`Upload.EveryCallMayFail`, `EveryReadMayFail`, `FolderMayBeLost`,
`Download.EveryDownloadMayFail`, `EveryWriteMayFail`). `Ledger.Book` holds
everything a pool and its surroundings agree on; the sets `torn` (files whose purge was
interrupted) and `leaked` (objects no row names) say how far a failure has taken them from
perfect agreement. `Pool.Valid` is that agreement, and `Pool.View` is the pool as its user
sees it: a map from names to bytes and a hidden mark.

Assumptions, each stated once as a predicate or a parameter: SHA-256 has no collision,
decompression undoes compression and a compressed form is not empty (RFC 1951;
`Codec.Lawful`, met by `Witness.PlainSuite`);
SHA-1 and MD5 have no collision among the keys in use (`CasStore.NoCollision`, met by
`CasStore.DigestsExist`; `P2P.NamesApart`); remote ids and folder names are new when they
are made; account ids are not empty and each has its own remote store; one pool per user
whose operations run one after the other; sizes fit a 64-bit integer; manifest reads
succeed; every remote object lies in an existing folder; messages can be decoded
(`P2P.Faithful`), and so can sizes (`P2P.Exact`, met by `P2P.LittleEndianExact`).

Where the code and its comments differ, the model follows the code. For each difference
there is an exact condition and a run that shows it:

- `reserve` never checks that the chunk fits: on limited accounts it over-commits if and only
  if the chunk is larger than every budget (`Placement.OverCommitsIff`, `OverCommitExample`).
- A checksum mismatch leaves its object, a cleanup delete without effect its own, a failing
  `AddChunk` those of all chunks without a row: `Outcome.LeftExactly` names exactly the objects
  that stay without a row and `Outcome.NothingLeftIff` when there are none (`Witness.LostUploadLeaks`,
  `FailingCreateLeaves`, `FailingRowLeaves`, `OneByteExample`).
- `cleanupChunks` leaves the folders: after a put the folders are those from before and the
  one it made on each account (`Outcome.FoldersAre`, `Witness.FailingCreateLeaves`).
- `GetVirtualFile` ignores the status, so a hidden file can still be read and purged
  (`Pool.Pool.GetStream` does not mention the hidden mark).
- `CopyDecrypt` takes its vector with one `Read`: decryption is right if and only if that read
  delivers all 16 bytes (`Ctr.RoundTripIff`); what a download does with a shorter one is
  `Codec.ShortReadIsRefused`.
- That `Read` also takes an end-of-file that comes together with the vector for a failure, so
  an empty file, stored in 16 bytes, cannot be read through such a reader. Otherwise
  undisturbed, a file reads back if and only if every row leads to its object and the file is
  not empty or its reader reports the end later (`Session.ReadBack`, `Witness.EmptyFileExample`).
- A purge skips accounts that are out of reach: it leaves an object of the file behind if and
  only if a row of the file named one on such an account (`Removing.PurgeLeavesIff`). When the
  accounts come back, a pool that would have been in order without the purge is in order if and
  only if none was skipped on them (`Pool.ReopenAfterPurgeIff`, `Witness.SkippedPurge`).
- `ListAccountStatus` crashes on an account row without an entry in the pool: if and only if
  there is one, which is never the case in a run (`Pool.Pool.ListAccountStatus`).
- `Store.Delete` removes every key of that id whose digest starts with the same five digits;
  it removes its key alone if and only if no other stored key does (`CasStore.DeleteIsExactIff`,
  `DeleteTakesNeighbour`).
- The schema alone does not isolate tenants (`Manifest.CascadeNeedsTenancy`); the invariant
  that a chunk has the user of its file and of its account does (`Manifest.TenantIsolation`).
- A message comes through whole if and only if it fits the decoder's 1028 bytes
  (`P2P.MessageIntactIff`).

## Model

| member | source | states |
|---|---|---|
| Session.ReadBack | drivepool/pool.go:412-705 | in every run without forced removals on healthy accounts, whatever uploads, deletes or manifest writes fail in it, a get in quiet surroundings (honest bytes, the vector in one read, no failing download or writer) returns exactly the bytes put under that name, provided in between no removal of that name succeeded and no purge of it was tried; it fails if and only if the file is empty and its reader reports the end together with the vector |
| Session.RunRefinesMap | drivepool/pool.go:412-857 | the view after any run is the plain map that results from replaying the successful commands, whatever failed, lost uploads, failing deletes and interrupted purges included, as long as no put fails at a manifest write after that of its file |
| Session.CleanThroughout | drivepool/pool.go:496-544 | after every command of any run in which uploads report truthfully and deletes and writes succeed, the objects on each healthy account are exactly those named by rows pointing at it, failed puts included |
| Session.ConnectedThroughout | drivepool/pool.go:277-296 | in every run without forced removals, whatever fails, no file that is not deleted has a row without account or with one missing from the pool, so none is degraded |
| Session.TenantsApart | drivepool/manifest/manifest.go:47-52 | no row of another user changes in a whole run of pool operations |
| Session.Run | drivepool/pool.go:412-857 | every run of the pool is a trace, so the theorems about traces hold of it |
| Pool.Pool.PutStream | drivepool/pool.go:412-547 | over all schedules and failures, the final state of the workers decides the result, the rows, the objects that stay without a row and the folders; nothing is tried if and only if no healthy account answered its quota query; success adds exactly this name and these bytes as a complete file, its row as given in full, and leaves nothing behind, and the one row of a file of one chunk is on an account that offers at least as much as any healthy account that answered; a reader that ends early, a taken name or a failure before the file's row leaves the view alone; a calm put of a free name succeeds if and only if no manifest write fails, whenever some healthy account answered that it is unlimited or the healthy limited ones that answered offer the size together |
| Pool.PutIsBalanced | drivepool/placement.go:90-111 | a file of several chunks, when no healthy account answered that it is unlimited: of all healthy accounts that answered, none receives more than a chunk beyond what it offered, and none that received a chunk ends more than a chunk behind another |
| Pool.PutPrefersUnlimited | drivepool/placement.go:90-99 | when some healthy account answered that it is unlimited, every row of a file of several chunks is on such an account |
| Pool.Pool.GetStream | drivepool/pool.go:634-705 | whatever arrives, the workers end in a state every schedule can reach and that decides output and result; the output is a front part of the bytes put, chunk-aligned unless the writer fails, success means all of them, and in quiet surroundings (honest bytes, the vector in one read, no failing download or writer) it succeeds if and only if every chunk has a row, every row leads to its object, and the file is not an empty one whose reader reports the end together with the vector |
| Pool.Pool.Remove | drivepool/pool.go:810-857 | a soft removal hides exactly that name; a purge deletes exactly that name, after all its objects and folders on usable accounts are gone, and leaves exactly its objects on the others; no object at all, with or without a row, is left in a folder a row of the file named on a usable account; accounts out of reach are not touched; a failure leaves manifest and view as they were; no other file loses an object; without failures it succeeds exactly when the name exists, also after an interrupted purge |
| Pool.Pool.RemoveAccount | drivepool/pool.go:277-296 | refused exactly when the token is unreadable, or unforced and some row of the user on that account belongs to a file that is not deleted, so that hidden files never block it; otherwise removed unless a write fails; never changes the view; unforced, every live file's rows and download plan stay the same |
| Pool.Pool.ListWithAccounts | drivepool/pool.go:767-808 | lists every visible name asked for once and in order, each with its size and with exactly the labels that the manifest's account rows give to the accounts its rows name, and "disconnected" for rows without one, in the order in which its rows first name them; degraded if and only if a row has lost its account |
| Pool.Pool.ListAccountStatus | drivepool/pool.go:310-342 | reports every account of the user: out of reach, without an answer, or with the largest number of bytes it offers; crashes if and only if an account row has no entry in the pool, which no pool in order has |
| Pool.Pool.CleanupChunks | drivepool/pool.go:601-611 | exactly the given objects it can reach and whose delete takes effect go; every folder and every other object, given ones on accounts out of reach included, is as before |
| Pool.Pool.RecordChunks | drivepool/pool.go:528-544 | exactly the rows before the failing one are written, each with its upload's data, and exactly the objects of the others stay without a row |
| Pool.Pool.Commit | drivepool/pool.go:514-547 | from error-free uploads to a complete file spread as chosen, or to exactly what Settles says |
| Pool.Pool.Abandon | drivepool/pool.go:505-512 | after a failed upload or a taken name exactly the lost objects and those whose delete has no effect stay, and the folders |
| Pool.Pool.PurgeObjects | drivepool/pool.go:824-842 | each row's object on a usable account is gone and its folder remembered, or a delete failed |
| Pool.Pool.PurgeFolders | drivepool/pool.go:848-852 | each remembered folder is gone, whatever the order, or a delete failed |
| Pool.Pool.Open | drivepool/pool.go:96-117 | opened on what any earlier pool left, with any accounts out of reach, the invariant holds and the view is the same; nameless objects on accounts that are back count as leaked, and with the same accounts out of reach nothing changes |
| Pool.PurgeReveals | drivepool/pool.go:824-832 | when accounts come back after a purge, exactly the objects it skipped on them come to light as nameless, besides those that would have before it |
| Pool.ReopenAfterPurgeIff | drivepool/pool.go:824-832 | a pool that would have been in order with some accounts back before a purge is in order with them after it if and only if the purge skipped no object on any of them |
| Outcome.NothingLeftIff | drivepool/pool.go:496-547 | after a put there is no new object without a row if and only if it reached the manifest and no row failed, or it did not, lost no upload and no cleanup delete was without effect |
| Outcome.LeftExactly | drivepool/pool.go:496-547 | the new objects without a row after a put are exactly those of lost uploads and of cleanup deletes without effect, or those of the rows not written |
| Outcome.CommitSettles | drivepool/pool.go:514-547 | once the file's row is written: the rows before the failing one, and as left-overs exactly the objects from it on, all still there |
| Outcome.AbandonSettles | drivepool/pool.go:496-526 | before that: the manifest untouched, exactly lost and stuck objects left, the folders made still there |
| Witness.LostUploadLeaks | drivepool/pool.go:575-581 | a run of the workers in which an upload takes effect and is reported as failed, and its object stays |
| Witness.FailingRowLeaves | drivepool/pool.go:528-544 | whenever the row of chunk k fails in an otherwise smooth put, exactly N-k objects stay without a row and the rows are 0 to k-1 |
| Witness.FailingCreateLeaves | drivepool/pool.go:523-526 | whenever the row of the file fails, a folder of the put stays, its objects go, and an object whose delete has no effect does not |
| Witness.EmptyFileExample | storage/crypto.go:60-65 | a run: the empty file reads back, and does not through a reader that reports its end together with the vector |
| Witness.SkippedPurge | drivepool/pool.go:819-856 | a run: put, account out of reach, purge, account back; the purge succeeds and exactly its object is left without a row |
| Ledger.Agreement | drivepool/pool.go:496-544 | with nothing leaked and no purge interrupted, an object lives on a healthy account if and only if a row names it |
| Ledger.CompleteShape | drivepool/pool.go:413-466 | a complete file has rows exactly 0 to N-1 of the prescribed sizes, packed sizes not larger, adding up to its size |
| Ledger.RowsArePrefix | drivepool/pool.go:528-544 | the rows of any file, also after a write failed in the middle, are 0 to k-1 |
| Upload.StepInv | drivepool/pool.go:444-496 | every step of reader and workers keeps the invariant, for every interleaving |
| Upload.Progress | drivepool/pool.go:478-496 | the upload cannot deadlock |
| Upload.EveryCallMayFail | drivepool/pool.go:478-493 | unless calls are said not to fail, any call of any started worker may, and the put then reports an error |
| Upload.EveryScheduleBounded | drivepool/pool.go:444-496 | every schedule ends within 6N+1 steps, and the chunks whose worker was started and has not finished are never more than allowed |
| Upload.SlotWrittenOnce | drivepool/pool.go:485-493 | a filled result slot is never written again |
| Upload.UploadedInOrder | drivepool/pool.go:498-503 | the collected list is exactly the counted chunks by ascending index, each with its own bytes stored |
| Upload.ErrorFreeIsComplete | drivepool/pool.go:498-513 | without an error it is 0 to N-1 and the buffers are the file |
| Upload.CalmUploadSucceeds | drivepool/pool.go:444-513 | if no call fails, a file that fits the summed budgets is uploaded completely |
| Upload.ShortReaderStops | drivepool/pool.go:459-464 | a reader that yields less than announced always makes the upload fail, under every schedule |
| Upload.StoredOverReserved | drivepool/pool.go:555-581 | bytes really stored on an account, lost uploads included, exceed the bytes reserved there by at most 16 per chunk |
| Upload.EveryObjectCounted | drivepool/pool.go:555-581 | every new object of the run belongs to a chunk, which counts exactly its bytes |
| Upload.ObjectsApart | drivepool/pool.go:555-581 | different objects belong to different chunks, so that no bytes are counted for two |
| Putting.RowsSpread | drivepool/pool.go:528-544 | the written rows record exactly the reservations that were made |
| Putting.SpreadIsBalanced | drivepool/placement.go:90-111 | the rows of a file of several chunks over-commit no limited account by more than one chunk and keep used accounts balanced to within one chunk |
| Download.StepInv | drivepool/pool.go:648-697 | every step of workers and writer keeps the invariant |
| Download.Progress | drivepool/pool.go:648-697 | no deadlock: the buffered channels never make a worker wait for the writer |
| Download.EveryScheduleBounded | drivepool/pool.go:648-697 | every schedule ends within 5N+1 steps, and the chunks whose worker was started and has not finished are never more than allowed |
| Download.LowestFailureDecides | drivepool/pool.go:679-701 | an error is reported if and only if some chunk failed, and the output is the chunks before the lowest failing index |
| Download.OutputIsPrefix | drivepool/pool.go:679-705 | at every moment of every run the output is a front part of the bytes put, in whole chunks unless the writer failed |
| Download.OkMeansAll | drivepool/pool.go:697-705 | success means that every byte put was written, also when rows are missing |
| Download.TimingDoesNotMatter | drivepool/pool.go:648-701 | two schedules in which the same chunks fail give the same output and result |
| Download.QuietOutcome | drivepool/pool.go:679-705 | with an honest remote side and a working writer, success if and only if all chunks have rows and all rows read back, whichever readers report their end with the last bytes |
| Getting.PlanReads | drivepool/pool.go:710-744 | all rows read back if and only if all chunks have rows whose objects are on healthy accounts, and the file is not an empty one whose reader reports the end with the vector |
| Removing.OneFolder | drivepool/pool.go:378-403 | all of a file's chunks on one account share one folder |
| Removing.BothLoops | drivepool/pool.go:819-852 | the two purge loops together leave nothing of the file on any usable account |
| Removing.PurgeLeavesIff | drivepool/pool.go:824-832 | a purge leaves an object of the file behind if and only if some row of it named one on an account out of reach |
| Leaving.IdleRemovalKeepsReads | drivepool/pool.go:277-296 | removing an account without active chunks leaves every live file's listing and download plan unchanged |
| Leaving.RemovalKeepsView | db/migrations/0001_init.up.sql:41-54 | even a forced removal keeps every file, every row and the view |
| Leaving.Describe | drivepool/pool.go:780-804 | a label is shown if and only if some row of the file names an account with it or lost its account; they stand in the order of the rows that first name each account; degraded if and only if some row lost its account |
| Leaving.DegradedMeansUnreadable | drivepool/pool.go:756-765 | with healthy accounts and nothing lost, a file is listed as degraded if and only if it can no longer be read |
| Placement.PickAccount | drivepool/placement.go:18-42 | an account with the most available space, or an error exactly when there is none |
| Placement.AvailableIsOffer | drivepool/gdrive/client.go:44-52 | available space is the largest number of bytes that limit and usage leave, never negative, and the largest 64-bit number on an unlimited account |
| Placement.Tracker.Reserve | drivepool/placement.go:90-111 | returns an account the rules allow and spends exactly the size on it, or fails exactly when every budget is negative |
| Placement.RefusedOnlyWhenFull | drivepool/placement.go:100-108 | without unlimited accounts a reservation fails only once more was reserved than all accounts offered |
| Placement.OverCommitsIff | drivepool/placement.go:100-110 | on limited accounts a reservation over-commits if and only if the chunk is larger than every budget |
| Placement.OverCommitBound | drivepool/placement.go:100-110 | no account is over-committed by more than one chunk |
| Placement.GreedyBalance | drivepool/placement.go:90-111 | an account picked at least once is never more than one chunk behind another |
| Placement.TrackerRefinesQuery | drivepool/placement.go:18-111 | every account the tracker returns is one a fresh quota query could return after storing the reserved bytes, unlimited accounts and the clamp at zero included |
| Manifest.TenantIsolation | drivepool/manifest/manifest.go:47-52 | no sequence of one user's statements changes another user's row, cascades and set-null included, and tenancy is kept |
| Manifest.CascadeNeedsTenancy | db/migrations/0001_init.up.sql:41-54 | without the tenancy invariant a purge can delete another user's chunk row |
| Manifest.Manifest.ListChunks | drivepool/manifest/manifest.go:235-239 | exactly the user's rows of the file, ascending |
| Manifest.Manifest.ListVirtualFiles | drivepool/manifest/manifest.go:198-205 | exactly the user's files that are not deleted and match, each once, ordered by name |
| Manifest.Manifest.FindFile | drivepool/manifest/manifest.go:189-196 | finds the file of that name whatever its status |
| Manifest.Manifest.DeleteVirtualFile | drivepool/manifest/manifest.go:212-225 | hides or removes with its chunk rows; a soft delete of an unknown name fails |
| Manifest.Manifest.RemoveAccount | drivepool/manifest/manifest.go:90-99 | removes the labelled account and nulls its chunk rows, or fails if there is none |
| Manifest.Manifest.CountActiveChunks | drivepool/manifest/manifest.go:145-153 | counts exactly the rows on the account that belong to a file that is not deleted |
| Drive.Drive.Delete | drivepool/gdrive/client.go:150-158 | after a folder delete that acts no object lies in that folder, after an object delete that object is gone, and in both cases every other object and folder and every other account is as before; a missing id is told apart |
| Codec.ChunkRoundTrip | drivepool/pool.go:554-594 | what an upload stores reads back as the chunk, compressed or not, for every vector, once the vector was read without an end-of-file |
| Codec.DownloadChunk | drivepool/pool.go:725-743 | over any reader exactly the check of what it delivers: how its first read was cut, and whether the end came with it |
| Codec.ShortReadIsRefused | drivepool/pool.go:725-743 | after a first read shorter than the vector an uncompressed chunk is refused, and a compressed one refused or still the chunk itself |
| Codec.ChunksShape | drivepool/pool.go:413-466 | the chunks number max(1, ceil(size / chunkSize)) and chunk i has min(chunkSize, size - i * chunkSize) bytes |
| Ctr.RoundTripIff | storage/crypto.go:54-89 | decryption undoes encryption if and only if the first read delivered the whole vector |
| Ctr.SealIsCounterMode | storage/crypto.go:71-89 | the sealed form is the vector and the plaintext in counter mode, in terms of block values only |
| Ctr.CounterBlocks | storage/crypto.go:87-88 | block 0 is the vector, and no two of the first 2^128 counter blocks are equal, so no pad is used twice in one file |
| Ctr.UnsealIsCounterMode | storage/crypto.go:54-69 | what decryption emits, for any first read, is what counter mode under the vector as read encrypts to the bytes behind it |
| Ctr.CopyStream | storage/crypto.go:29-52 | succeeds exactly when the reader ends regularly and the writer has room; the output is the whole input under one stream, the count 16 more; on failure a front part |
| Ctr.CopyEncrypt | storage/crypto.go:71-89 | whatever the reads, emits the vector and then counter mode as in section 6.5 of NIST SP 800-38A: byte r of block q is the plain byte XOR byte r of the cipher of the block whose big-endian value is that of the vector plus q modulo 2^128; on failure a front part of that |
| Ctr.CopyDecrypt | storage/crypto.go:54-69 | exactly when it succeeds, what it emits for any first read, and on failure a front part of that |
| Ctr.EncryptThenDecrypt | storage/crypto.go:29-89 | for two unrelated splittings, and readers that report their end with the last bytes or after them, the plaintext comes back and both counts are 16 plus its length |
| CasStore.CasPathTransform | storage/store.go:16-33 | five-digit segments joined by slashes, and the digest as file name |
| CasStore.SegmentsFlat | storage/store.go:20-27 | the segments together are the digest |
| CasStore.FirstIsFiveDigits | storage/store.go:42-48 | the first path name is the first five digits |
| CasStore.WriteRefines | storage/store.go:122-141 | a write always succeeds and changes exactly its key |
| CasStore.DeleteRefines | storage/store.go:96-106 | a delete removes exactly the keys of that id whose digest shares the first five digits |
| CasStore.DeleteIsExactIff | storage/store.go:96-106 | it removes its key alone if and only if no other stored key of that id shares them |
| CasStore.DeleteTakesNeighbour | storage/store.go:96-106 | with two such keys it takes the other along |
| CasStore.Store.Has | storage/store.go:84-90 | true exactly for stored keys |
| CasStore.Store.Write | storage/store.go:108-141 | the map with that key set |
| CasStore.Store.Read | storage/store.go:143-162 | what was last written, or an error |
| CasStore.Store.Delete | storage/store.go:96-106 | the map without the keys sharing id and five digits |
| P2P.MessageIntactIff | p2p/encoding.go:20-43 | a message comes through whole if and only if it fits the 1028-byte buffer |
| P2P.StepInv | p2p/tcp_transport.go:139-158 | every step of arrival, read loop and handler keeps the framing, for every schedule |
| P2P.FinishInv | server.go:253-269 | after the announced number of bytes the handler stands exactly at the next frame |
| P2P.Progress | p2p/tcp_transport.go:139-158 | nothing gets stuck before everything is dealt with |
| P2P.ResumesAtBoundary | p2p/tcp_transport.go:139-158 | for any sequence of stores and requests and any schedule, a loop at rest has dealt with exactly the first k and has exactly the others before it |
| P2P.Receive | server.go:217-269 | every schedule ends with every stored file on the receiver's disk, byte for byte, and every request answered from what was sent before it |
| P2P.LastStoreCounts | server.go:253-269 | under each name a receiver keeps what was stored there last, whatever came under other names since |
| P2P.RequestAnswered | server.go:217-251 | a request is answered, behind all earlier answers, with a stream byte, the size and the bytes of the file stored last under its name before it, and with nothing if none was |
| P2P.ReplicaIsSealed | server.go:127-166 | after any sequence of stores a peer's replica under a name is the sealed form of the file stored last under it |
| P2P.Fetch | server.go:107-121 | one peer's answer decrypts to the file and leaves the connection at its next frame |
| P2P.Get | server.go:85-125 | a node with its copy serves it; one without gets the file from the replicas that arrive and keeps it |
| P2P.StoreThenGet | server.go:85-269 | after any sequence of stores received by any number of peers under any schedules, a node that lost its copy gets back, and keeps, the bytes it stored last under that name |
| Oauth.AcceptedIff | backend/handlers_oauth.go:63-76 | a callback for an open connect passes exactly within the time to live, for that connect's user and label |
| Oauth.ConnectAnswer | backend/handlers_oauth.go:35-57 | a connect with a label is redirected and its state then redeems for that user and label up to ten minutes later and is rejected after that; one without a label is refused and changes nothing; other states are unaffected |
| Oauth.RejectedOtherwise | backend/handlers_oauth.go:63-76 | without an open connect it is rejected |
| Oauth.NeverTwice | backend/handlers_oauth.go:66-71 | with fresh states no state passes twice |
| Oauth.SweepsInvisible | backend/handlers_oauth.go:106-115 | a run and the same run without its sweeps give every request the same verdict |
| Oauth.PendingTable.HandleConnect | backend/handlers_oauth.go:35-57 | records user, label and time under the state, unless the label is missing |
| Oauth.PendingTable.HandleCallback | backend/handlers_oauth.go:63-96 | redeems the state once and answers by its age |
| Oauth.PendingTable.SweepExpired | backend/handlers_oauth.go:106-115 | drops exactly the expired entries |

## Left out

- AES, SHA-256, SHA-1, MD5, DEFLATE, gob, JSON and encoding/binary internals: parameters with the stated assumptions.
- The MD5 comparison of `uploadChunk`: an upload that stored its object and is reported as failed is one kind of event, whatever the reason.
- Manifest writes that commit and are reported as failed: a failing write changes nothing here.
- The Drive client, OAuth exchange and token refresh, consent flow, sessions, routing, configuration and deployment: network and plumbing.
- `AddAccount`, `CompleteConsent` and cached quota columns: accounts are those present when the pool opens; the manifest's insert is modelled.
- Surrogate chunk ids, timestamps, `chunk_replicas`, `Replicas` and `Version`: nothing modelled depends on them.
- Failing manifest reads: every operation reads before it writes or deletes, so one that meets such a failure returns without having changed anything.
- Several pools for one user, and account removal inside a put: the check in `RemoveAccount` is not atomic with the delete, so operations are taken one after the other.
- Accounts changing health during a run, and objects changed on the accounts by others: reads are proved for arbitrary delivered bytes, the agreement is not claimed then.
- Pool.Pool.ListWithAccounts: the LIKE pattern is an arbitrary predicate on names and the database's collation an arbitrary total order.
- Pool.Pool.PutStream: takes the announced size as the length of the data; a reader that yields less is modelled, one that yields more is read up to the announced size only.
- P2P.Receive: sleeps, coalesced sends and a handler that reads before the loop is parked are not modelled; the code relies on timing there.
- P2P.Get: a peer without a replica, which makes the asking node wait forever, is not modelled, and a first piece shorter than the vector is excluded; `P2P.StoreThenGet` derives both from the peers' disks.
- P2P.StoreThenGet: a peer's disk is the map its store refines, not a second directory tree.
- CasStore.Store.Write: the keys in use are fixed when the store is made, so that collisions among them can be excluded; ids are single path components; paths with dots or empty components are not normalised, and disk errors are not modelled.
- The default path transform, `Clear`, `poolCache`, totals, the command line, the frontend: they would only add easy members.
