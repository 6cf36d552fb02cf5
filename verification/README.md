# Anbar: verified models

Anbar is a file store that keeps its bytes in Telegram messages.  An upload is cut into chunks, each chunk is posted
as a message by one of several bots, and a manifest in SQLite says where the chunks are; a download reads the
manifest, fetches the chunks and answers byte ranges.  Around that sit a metadata database with a cache, file and
chunk caches, a durable job queue, a link registry kept in two stores, a QR generator, and two ways to read a file
back from Telegram.

This project models those parts in Dafny and proves what they are for:

- **QR codes** (`GaloisField`, `Polynomials`, `ReedSolomon`, `QrLayout`, `QrMatrix`): the exp/log tables implement
  multiplication in GF(2^8); the in-place division yields codewords of the Reed-Solomon code, whose minimum distance
  is proved; the zigzag fill visits every free module once and reads back to the data.
- **Parallel and restarting downloads** (`ParallelDownload`, `ResilientDownload`): a step relation for workers,
  bounded queue, sentinel and reordering consumer, with safety, conservation, deadlock freedom and a bound on
  progress steps over every interleaving; and the iterator that reopens its stream at the current offset.
- **The object store end to end** (`Uploads`, `Storage`, `ObjectStore`, `Manifests`, `Downloads`, `EndToEnd`,
  `Histories`): request body, chunker, posting across pool members, checkpoint, resume, rollback, manifest, range
  selection, lookahead streaming and both caches, while other requests run.  The main result,
  `Histories.App.Serve`, is about any sequence of uploads (broken off and resumed any number of times), range reads,
  deletions, restores and lost cache files: whatever is read is the content that was stored, all of it unless the
  client leaves, three fetches fail, or others have deleted a chunk or the cached file; destroying an object deletes
  its blobs and no other object's; and each failure has a recorded reason.
- **Caches** (`Lru`, `Caches`), **metadata** (`Databases`), **jobs** (`JobQueues`), **sending** (`BotPool`,
  `FloodPacing`), **links** (`Links`), **archive names** (`ZipNames`).

Objects that the program updates in place are classes here, with loops where the program loops.  Foreign code is
nondeterministic: `Storage.Channel` may flood, refuse, fail or be killed at any call, and `Downloads.Client` may hang
up.  A request's own mishaps are counted in its `Storage.Caller`, and what others take away is recorded in
`Storage.Channel.lost` and `Downloads.Server.lostFiles`, so that a failure can be traced to them: a chunk looked for
where it is not is no failed fetch.

Other requests run where the code awaits: `ObjectStore.ObjectService.OthersRun` while an upload waits for its client,
before every post, after every successful one and before every deletion; `Downloads.Server.OthersRun` before and after
every fetch, hence between its tries and before its result is cached, after each piece sent, before a cached file is
opened, and before each deletion of a destroyed object. They may post and delete blobs, add objects, write other
checkpoints, fill, evict and prune the caches. `Downloads.Kept` says what they may not do, which is also what is
proved of every request here, where a request that destroys an object counts as having its own blobs deleted
(`Downloads.AsIfLost`). Clocks and generated ids are parameters. A SHA-256 is represented by the bytes fed to
it.

Where the code does not do what its documentation says, the model follows the code:

- Re-sending an upload after a dropped connection is documented to resume it, but a dropped connection is a handled
  failure, and rollback deletes the posted chunks while keeping the checkpoint.  `ObjectStore.ResumableAfterRollback`
  gives the exact condition: the upload can be resumed if and only if it had not resumed itself and no chunk had been
  handed over; for a client that goes silent, if and only if less than one chunk had arrived
  (`EndToEnd.DroppedConnection`).  `ObjectStore.StalledAfterOneChunk` is an instance.  After the process is killed the
  upload can always be resumed (`KilledAndResumed`).
- A client that tries again after such a rollback goes on from the chunks the checkpoint still records, and the upload
  is stored without them.  `ObjectStore.StoredExactly` says which chunks are missing, and that the manifest holds the
  content if and only if the chunks resumed from did; `ObjectStore.StoredWithoutItsFirstChunk` is an instance.  No
  chunk is ever wrong (`ObjectStore.StoredTrue`, `ObjectStore.RecordNeverWrong`).
- Symbols of versions 9 and 10 are encoded as one block of 262 and 292 symbols.  A block of the code corrects as many
  errors as it should if and only if it is no longer than 255 (`Polynomials.MinimumDistanceExactly`,
  `ReedSolomon.UniqueDecodingExactly`), so these two versions do not have the promised error correction
  (`Polynomials.LongBlocksTooClose`).
- Destroying an object drops its links from kv but not from the table (`Links.PurgeObjectAgrees`;
  `Links.PurgeLeavesLiveRow` is an instance).
- A suffix range on an empty object is answered 206 instead of 416 (`Downloads.ParseRangeSelects`;
  `Downloads.EmptySuffixAnswered` is an instance).
- A handler that raises an exception closes its job as failed if and only if the message is not empty, and as done
  otherwise (`JobQueues.EndedRowIsTerminal`; `JobQueues.EmptyMessageIsDone` is an instance).
- An empty link signature or name would be stored differently in the two link stores (`Links.RegisterAgrees`), and a
  chunk whose backend name is the empty string would not survive the JSON round trip (`Manifests.JsonRoundTrip`).  The
  program produces neither: the only registration passes an HMAC and no empty name (src/anbar/api/download.py:641-649),
  and pool members have non-empty names.
- The comment at src/anbar/telegram_ingest.py:1118 speaks of a bounded buffer; the reorder buffer is not bounded, and
  no bound is claimed.

## Model

| member | source | states |
|---|---|---|
| GaloisField.MulIsRemainder | src/anbar/qrcode.py:15-33 | the product is the carry-less product of the two bytes reduced by 0x11D |
| GaloisField.CarryLessIs | src/anbar/qrcode.py:15-33 | that carry-less product is the sum of the first byte shifted by the positions of the second one's bits |
| GaloisField.MulComm | src/anbar/qrcode.py:30-33 | multiplication is commutative |
| GaloisField.MulAssoc | src/anbar/qrcode.py:30-33 | multiplication is associative |
| GaloisField.MulAdd | src/anbar/qrcode.py:30-33 | multiplication distributes over XOR |
| GaloisField.AlphaPowInjective | src/anbar/qrcode.py:15-22 | the first 255 powers of alpha are distinct: alpha generates the field |
| GaloisField.DiscreteLog | src/anbar/qrcode.py:15-22 | every nonzero byte is a power of alpha with exponent below 255 |
| GaloisField.AlphaPowInverse | src/anbar/qrcode.py:15-33 | nonzero bytes have inverses |
| GaloisField.NoZeroDivisors | src/anbar/qrcode.py:30-33 | a product is zero only if a factor is |
| ReedSolomon.InitGf | src/anbar/qrcode.py:15-24 | the shift-and-reduce loop fills _EXP with the powers of alpha over two periods and _LOG with their logarithms |
| ReedSolomon.Tables.constructor | src/anbar/qrcode.py:10-27 | _EXP and _LOG are inverse to each other on all nonzero bytes |
| ReedSolomon.Tables.Gmul | src/anbar/qrcode.py:30-33 | adding logarithms is field multiplication, zero included |
| ReedSolomon.XorScaled | src/anbar/qrcode.py:57-58 | the inner loop adds a scaled polynomial at an offset and changes nothing else |
| ReedSolomon.PolyMul | src/anbar/qrcode.py:43-48 | the double loop computes the product of polynomials |
| Polynomials.EvalProduct | src/anbar/qrcode.py:43-48 | that product multiplies values at every point |
| ReedSolomon.RsGenPoly | src/anbar/qrcode.py:36-40 | builds the generator |
| Polynomials.GeneratorRoots | src/anbar/qrcode.py:36-40 | the generator's roots are exactly alpha^0 to alpha^(nsym-1) |
| Polynomials.GeneratorMonic | src/anbar/qrcode.py:36-40 | the generator is monic |
| ReedSolomon.DivisionStep | src/anbar/qrcode.py:54-58 | one turn of the division clears one coefficient and keeps data = remainder + quotient * generator |
| ReedSolomon.RsEncode | src/anbar/qrcode.py:51-59 | data followed by the check bytes is a multiple of the generator and vanishes at all its roots |
| Polynomials.LightCodewordIsZero | src/anbar/qrcode.py:51-59 | a codeword with at most nsym nonzero symbols is zero |
| Polynomials.MinimumDistance | src/anbar/qrcode.py:51-59 | two codewords of length at most 255 differ in more than nsym symbols |
| Polynomials.MinimumDistanceExactly | src/anbar/qrcode.py:51-59 | for nsym of at least 2 all codewords of a length are that far apart if and only if the length is at most 255 |
| Polynomials.LongBlocksTooClose | src/anbar/qrcode.py:82-122 | the blocks of versions 9 and 10 are too long for it |
| ReedSolomon.CheckBytesUnique | src/anbar/qrcode.py:51-59 | no other check bytes complete the data to a codeword, however long the data |
| ReedSolomon.UniqueDecoding | src/anbar/qrcode.py:51-59 | up to nsym/2 symbol errors leave the sent codeword the only nearest one, in blocks of at most 255 symbols |
| ReedSolomon.UniqueDecodingExactly | src/anbar/qrcode.py:51-59 | for nsym of at least 2 that is so if and only if the block has at most 255 symbols |
| QrLayout.WalkVisits | src/anbar/qrcode.py:187-207 | after any number of rows the zigzag has visited exactly the cells that rank before that point, once each |
| QrLayout.FullWalkVisits | src/anbar/qrcode.py:187-207 | the whole zigzag visits every cell outside column 6 exactly once |
| QrLayout.AlignmentEven | src/anbar/qrcode.py:121-162 | the alignment coordinates of every version are those of Annex E of ISO/IEC 18004: evenly spaced from 6 to seven from the edge |
| QrLayout.DataModulesPartition | src/anbar/qrcode.py:121-207 | every module is either reserved or visited exactly once as a data module |
| QrMatrix.SetFinder | src/anbar/qrcode.py:124-136 | finder rings and separator, cut at the edges; all else unchanged |
| QrMatrix.DrawAlignment | src/anbar/qrcode.py:147-168 | squares are drawn exactly at the coordinate pairs whose centre was unset, and do not overlap |
| QrMatrix.DrawPatterns | src/anbar/qrcode.py:138-183 | every module after the function patterns, for every version |
| QrMatrix.PatternReserved | src/anbar/qrcode.py:138-183 | exactly the reserved modules are set then |
| QrMatrix.PlaceData | src/anbar/qrcode.py:185-207 | the zigzag loop puts bit k, inverted where row + column is even, in the k-th data module and leaves no module unset |
| QrMatrix.FormatTwice | src/anbar/qrcode.py:209-229 | each of the two format copies carries every format bit |
| QrMatrix.DrawFormat | src/anbar/qrcode.py:209-229 | the format writes touch only format modules |
| QrMatrix.BuildMatrix | src/anbar/qrcode.py:121-230 | the symbol is 17 + 4 * version modules wide; the k-th data module carries bit k inverted exactly where row + column is even, zeros following the data; so re-reading it gives the data bits up to capacity, then zeros |
| QrMatrix.FormatAnnounces | src/anbar/qrcode.py:203-213 | the format bits are 0x77C4; without the disguise they are a codeword of the format code that announces level L and the number of the mask that is used |
| ParallelDownload.Safety | src/anbar/telegram_ingest.py:1175-1277 | in every interleaving the yielded parts are 0, 1, 2, ... as answered; a normal end means all of them; a part given up is never passed |
| ParallelDownload.Conservation | src/anbar/telegram_ingest.py:1177-1277 | every part handed out is in exactly one of: yielded, reorder buffer, queue, a worker, given up |
| ParallelDownload.NoEarlySentinel | src/anbar/telegram_ingest.py:1252-1273 | the consumer meets the sentinel only when every part was yielded |
| ParallelDownload.DeadlockFree | src/anbar/telegram_ingest.py:1177-1277 | an unfinished run always has a step that makes progress, even with a full queue |
| ParallelDownload.ProgressBounded | src/anbar/telegram_ingest.py:1184-1277 | a run makes at most 15 * parts + workers + 4 steps other than uncounted waits |
| ParallelDownload.QueueOfSixteen | src/anbar/telegram_ingest.py:1177-1258 | in every run the queue holds at most sixteen items, and a worker waits to put one exactly while it holds sixteen |
| ParallelDownload.GivenUpAtTheEleventhError | src/anbar/telegram_ingest.py:1184-1248 | in every run a part is given up exactly when the eleventh error has counted against it, and is tried again before |
| ParallelDownload.Ends | src/anbar/telegram_ingest.py:1255-1277 | the caller can close a run at any time, after which nothing more happens; once all parts are yielded nothing more is taken and the run can end |
| ParallelDownload.PartsNeeded | src/anbar/telegram_ingest.py:1120-1174 | the parts of 512 KiB cover the file, and none is superfluous |
| ParallelDownload.YieldsTheFile | src/anbar/telegram_ingest.py:1120-1277 | with an honest server the yielded bytes are the first parts of 512 KiB of the file, and all of it at a normal end |
| ResilientDownload.ResilientIter | src/anbar/telegram_ingest.py:1030-1085 | for every pattern of pieces, faults and flood waits exactly file[..offset] was yielded; it fails if and only if more than 10 faults came without a byte in between; it stops at the first event that ends it: the stream's end, or a break by which the expected size was reached |
| ResilientDownload.CountUnique | src/anbar/telegram_ingest.py:1047-1067 | the number of faults since the last byte is determined by the events |
| Uploads.BodyReader.Read | src/anbar/api/upload.py:397-408 | exactly n bytes, or what is left of a complete body, else the failure; nothing is lost between reads |
| Uploads.ChunksExactly | src/anbar/objects.py:147-162 | the chunks of a content are the only list of full chunks with a non-empty tail that joins to it |
| ObjectStore.ObjectService.constructor | src/anbar/object_service.py:32-66 | resuming counts only with a checkpoint key |
| ObjectStore.ObjectService.LoadPriorChunks | src/anbar/object_service.py:69-82 | the first resume_from recorded chunks, or refusal past the checkpoint |
| ObjectStore.ObjectService.Post | src/anbar/object_service.py:155-181 | with two or more members, one of them the backend: one post at the next member in turn, or the next healthy one once a flood was marked, and one more after a flood at another member unless that is the primary; otherwise one post at the backend; the blob is under the member reported, and the channel otherwise holds what others made of it |
| ObjectStore.ObjectService.PickAfterFlood | src/anbar/object_service.py:168-173 | exactly the member that flooded is penalised, for 60 seconds; the next one asked is a healthy other member if there is one |
| ObjectStore.ObjectService.OnChunk | src/anbar/object_service.py:139-204 | a resumed chunk is dropped; any other is posted once, listed with the member that holds it, by name exactly if the pool has two or more members and owns the backend, and checkpointed; a flood fails it after two sends then, else after one; after a failure nothing of this run has changed |
| ObjectStore.ObjectService.ReadChunk | src/anbar/objects.py:148-157 | one chunk, or the ceiling error as soon as the total would pass it |
| ObjectStore.ObjectService.ChunkStream | src/anbar/objects.py:129-162 | all chunks are handed over in order and hashed; no more than the ceiling is handed over; a failure has its reason: the content is larger, the client went silent, the sends failed or the process was killed |
| ObjectStore.ObjectService.Rollback | src/anbar/object_service.py:221-240 | every listed blob is deleted at the member that holds it, and no other, while others post and delete |
| ObjectStore.ObjectService.StoreStream | src/anbar/object_service.py:116-219 | the whole outcome among other requests: manifest, blobs, checkpoint and hash after success, kill and handled failure, and the reason of each failure; posted chunks name a member exactly if the pool has two or more and owns the backend, and then, without floods or picks of other requests, consecutive chunks go round the pool from where it stood |
| ObjectStore.RecordForgets | src/anbar/object_service.py:69-108 | a checkpoint written and read back forgets only a chunk's handle for bots |
| ObjectStore.ProgressPosts | src/anbar/object_service.py:139-204 | posting one chunk keeps: resumed chunks untouched, each other chunk posted once under a fresh id, the rest of the channel as it would be without this run |
| ObjectStore.StoredUpload | src/anbar/object_service.py:116-219 | resumed or not, the manifest's chunks hold the content, and exactly chunks - resume_from blobs were posted |
| ObjectStore.KilledUpload | src/anbar/object_service.py:84-108 | wherever the process is killed, the checkpoint's chunks hold the leading chunks of the content |
| ObjectStore.KilledAndResumed | src/anbar/object_service.py:69-219 | an upload killed and resumed any number of times, among other uploads, ends with a manifest that holds the content |
| ObjectStore.FailedUpload | src/anbar/object_service.py:206-240 | after a handled failure with successful deletions every member holds what it would hold had this run never happened, less the chunks resumed from |
| ObjectStore.ResumableAfterRollback | src/anbar/object_service.py:216-240 | such an upload can be resumed if and only if it had resumed from nothing and no chunk had been handed over |
| ObjectStore.StalledAfterOneChunk | src/anbar/object_service.py:206-240 | an instance: one chunk posted, then the client stalls, and what could be resumed before cannot be any more |
| ObjectStore.StoredTrue | src/anbar/object_service.py:69-219 | a completed upload has a manifest each of whose chunks is the content's or missing, even if it resumed from a rolled-back attempt |
| ObjectStore.StoredExactly | src/anbar/object_service.py:69-219 | exactly the resumed chunks that were missing are missing, so the manifest holds the content if and only if the chunks resumed from did |
| ObjectStore.StoredWithoutItsFirstChunk | src/anbar/object_service.py:69-240 | an instance: after a rollback the client resumes from one recorded chunk, and the upload is stored without it |
| ObjectStore.RestStays | src/anbar/object_service.py:116-240 | no blob that was there goes unless others delete it, or the run had resumed from it and failed |
| ObjectStore.RunSince | src/anbar/object_service.py:84-219 | what a run lists and records is new when what it resumed from is |
| ObjectStore.KilledCount | src/anbar/object_service.py:84-204 | a killed run that resumed from its whole checkpoint has posted exactly what the checkpoint records besides |
| ObjectStore.RecordNeverWrong | src/anbar/object_service.py:84-240 | however a run ends, its checkpoint records no chunk that is not the content's |
| ObjectStore.ObjectService.Commit | src/anbar/object_service.py:243-265 | the object row of a non-empty manifest; none for an empty one |
| ObjectStore.ObjectService.DropCheckpoint | src/anbar/object_service.py:110-113 | only this upload's checkpoint goes |
| ObjectStore.CommittedManifest | src/anbar/object_service.py:246-264 | the manifest read back from the row has the content's size and its chunk sizes fit |
| Manifests.JsonRoundTrip | src/anbar/objects.py:57-93 | to_json then from_json is the identity if and only if no chunk has the empty backend name |
| Manifests.PrefixSizes | src/anbar/objects.py:95-102 | entry i is the end offset of chunk i |
| Manifests.MapRange | src/anbar/objects.py:104-122 | rejects exactly the ranges outside the object; otherwise non-empty segments that tile the range, each chunk at most once |
| Manifests.TilesGather | src/anbar/objects.py:104-122 | tiling segments select exactly the bytes of the range, for every content with these sizes |
| BotPool.DecimalReads | src/anbar/storage/bot_pool.py:51 | the number in a member's name reads as that number |
| BotPool.BotPool.constructor | src/anbar/storage/bot_pool.py:43-65 | members are "bot", "bot:1", "bot:2", ...; nobody is penalised |
| BotPool.MemberNamesDistinct | src/anbar/storage/bot_pool.py:43-53 | members have distinct names |
| BotPool.ByNameFindsMember | src/anbar/storage/bot_pool.py:76-89 | every member is found under its own name if and only if names are distinct |
| BotPool.HealthyExactly | src/anbar/storage/bot_pool.py:119-123 | the rotation lists exactly the members whose penalty is over, in order |
| BotPool.FloodedMemberSkipped | src/anbar/storage/bot_pool.py:100-124 | a flooded member is out of the rotation for exactly 60 seconds, and no one else is |
| BotPool.BotPool.MarkFlood | src/anbar/storage/bot_pool.py:100-110 | only the first member of that name is penalised |
| BotPool.BotPool.Next | src/anbar/storage/bot_pool.py:112-130 | a healthy member if there is one, else the primary, and which counter advances |
| BotPool.RotationIsFair | src/anbar/storage/bot_pool.py:112-130 | over as many picks as members, each member is picked exactly once, wherever the counter stands |
| BotPool.Turns | src/anbar/storage/bot_pool.py:112-130 | a run of calls of next() while the healthy members stay the same: they take turns, and as many calls as members pick each once |
| Downloads.ParseRangeSelects | src/anbar/api/download.py:53-72 | the answer is exactly the positions selected by section 14.1.2 of RFC 9110; 416 if and only if none is, except a suffix of an empty object |
| Downloads.EmptySuffixAnswered | src/anbar/api/download.py:53-72 | an instance of that exception |
| Downloads.Server.FetchChunk | src/anbar/api/download.py:379-388 | the chunk's bytes from memory or backend, and then in memory as the last used chunk unless they are larger than it; none only after three failed fetches of a blob that was there, or if the blob is gone from where the manifest says; the cache stays coherent while others run |
| Downloads.Server.FetchUncached | src/anbar/api/download.py:390-418 | the chunk from a bot in hybrid mode, or from the member that holds it in up to three tries; none only after exactly three failures, or if the blob is gone from there |
| Downloads.Server.Stream | src/anbar/api/download.py:448-481 | with the lookahead the client gets the segments' bytes in order, all of them unless it hangs up, three fetches fail, or a chunk is gone |
| Downloads.Server.FillingStream | src/anbar/api/download.py:425-444 | a complete stream is cached, an incomplete one never, and no temporary file is left behind |
| Downloads.Server.CachedStream | src/anbar/api/download.py:347-362 | the range of the cached file; it fails only if others have removed the file |
| Downloads.Server.LookUp | src/anbar/api/download.py:347 | a hit exactly when the cache has an entry whose file exists, and the file holds the object |
| Downloads.StaysDescribed | src/anbar/api/download.py:230-483 | what all requests may do keeps every manifest's meaning |
| Downloads.KeptForOthers | src/anbar/api/download.py:425-444 | a request that touches no file but its own does nothing another request does not expect |
| Downloads.LackingMeansLost | src/anbar/api/download.py:379-418 | a chunk that was there and is gone has been deleted by others |
| Downloads.Server.DeleteBlobs | src/anbar/object_service.py:281-302 | exactly the object's blobs are deleted, all of them if no deletion fails, and no other blob |
| Downloads.Server.Download | src/anbar/api/download.py:230-483 | for every cache state and interleaving the client gets the whole object if no range was asked for, a refusal if it was malformed, else exactly the positions the range selects or a refusal if there are none; all of it unless it hangs up, three fetches fail, a chunk is gone from where the manifest says, or others remove the cached file the lookup found before it is opened; with a cached file the backend is not asked, and a whole object that was sent without one is cached afterwards if it fits; other objects, blobs and files are left as others need them |
| EndToEnd.Upload | src/anbar/api/upload.py:50-71 | store, commit, drop the checkpoint: an upload nothing troubles is stored, a failure has its reason, the row's manifest holds the content if and only if the chunks resumed from did, and no other blob is touched |
| EndToEnd.DroppedConnection | src/anbar/object_service.py:206-240 | after the client went silent and rollback succeeded, the upload can be resumed if and only if it had resumed from nothing and less than a chunk had arrived |
| EndToEnd.UploadThenDownload | src/anbar/object_service.py:116-265 | upload, commit, JSON manifest and range download return exactly the requested bytes of what was sent, fetched from the members that hold them; all of them unless the client leaves, three fetches fail or others delete a chunk, and each failed upload has its reason |
| Histories.TryingFails | src/anbar/api/upload.py:240-345 | a client that asks for the reported chunk count after every failure goes on from true chunks, and as long as only kills interrupt it posts no chunk twice |
| Histories.App.Put | src/anbar/api/upload.py:240-345 | such a client stores its content or is told why not; if only kills interrupted it, each chunk was posted exactly once and all are there; chunks are missing only after a rolled-back attempt |
| Histories.App.Get | src/anbar/api/download.py:230-483 | not found exactly without a live row; else the right bytes, all of them unless the client leaves, three fetches fail, others deleted a chunk or the cached file, or chunks were missing from the start |
| Histories.App.Remove | src/anbar/api/download.py:690-740 | the first deletion trashes and deletes no blob, a second or purging one destroys the object and its blobs |
| Histories.ToldWithout | src/anbar/object_service.py:281-302 | destroying one object leaves every other one its blobs |
| Histories.App.Serve | src/anbar/api/download.py:230-740 | over every history every read is answered with the bytes of the object that was stored under the id and not trashed or destroyed since, and not found otherwise; every object keeps its blobs, less those others delete or that were missing from the start; each failure has its reason |
| Lru.EvictKeepsLongestSuffix | src/anbar/cache.py:119-126 | eviction keeps the longest most-recent suffix that leaves room |
| Lru.RemoveConsistent | src/anbar/cache.py:95-103 | removal keeps the byte counter exact and the order of last use |
| Lru.AppendConsistent | src/anbar/cache.py:91-92 | admission keeps them too |
| Caches.ChunkMicroCache.Get | src/anbar/cache.py:177-192 | a hit becomes the last used entry and the last one in order, an expired one goes |
| Caches.ChunkMicroCache.Put | src/anbar/cache.py:194-204 | the new cache: old entry replaced, then evicted, then admitted; oversized data changes nothing |
| Caches.ChunkMicroCache.RemoveObject | src/anbar/cache.py:206-210 | exactly the chunks of that object go |
| Caches.DiskLRU.Get | src/anbar/cache.py:49-60 | a hit becomes the most recent entry; an entry whose file is gone is dropped |
| Caches.DiskLRU.EvictFor | src/anbar/cache.py:119-126 | the longest suffix stays, and exactly the files of the others go |
| Caches.DiskLRU.Add | src/anbar/cache.py:69-93 | the new cache and directory on every path; no file without entry or owner is left |
| Caches.DiskLRU.Remove | src/anbar/cache.py:95-103 | the entry and its file go |
| Databases.ObjectLRU.Get | src/anbar/db.py:24-28 | a hit becomes the most recent entry |
| Databases.ObjectLRU.Put | src/anbar/db.py:30-35 | the most recent entries up to the capacity |
| Databases.Database.GetObject | src/anbar/db.py:256-269 | whatever is cached: the row, unless it is in the trash and the trash was not asked for |
| Databases.Database.InsertObject | src/anbar/db.py:216-253 | row and cached copy agree; a duplicate id changes neither |
| Databases.Database.BumpDownloads | src/anbar/db.py:580-586 | row and cached copy count alike |
| Databases.Database.RenameFolderRows | src/anbar/db.py:369-386 | exactly the matched live rows get the new prefix for the length of the old one, and their number |
| Databases.Database.MoveObjects | src/anbar/db.py:546-577 | exactly the matched live rows with a basename are moved, under the part of their name after its last slash; how many, and which were skipped |
| Databases.Database.CopyFolderRows | src/anbar/db.py:389-426 | one new live row per matched row, with its content, the new prefix, the current time and no downloads |
| Databases.Database.CopyObject | src/anbar/db.py:429-473 | the copy of a live row under the given name or its own with " (copy)" in it; its content, the current time and no downloads |
| Databases.CopyMarked | src/anbar/db.py:440-447 | the mark stands before the last dot and the extension |
| Databases.CopyMarkedAtEnd | src/anbar/db.py:440-447 | or at the end of a name that has no dot or starts with one |
| Databases.LastPart | src/anbar/db.py:563-568 | a basename is what follows the last slash |
| Databases.Database.Perform | src/anbar/db.py:215-586 | each operation changes the table as its statement says and keeps every cached entry a live row; a get is answered with the row unless it is in the trash and the trash was not asked for |
| Databases.Database.Serve | src/anbar/db.py:215-586 | over every history of operations every answer is the uncached one |
| Databases.HiddenInTrash | src/anbar/db.py:256-269 | over every history: after a soft delete at a time later than 0 an object is not found until it is restored, or removed and created again |
| Databases.ShownInTrash | src/anbar/db.py:256-269 | over every history: meanwhile the trash shows the row as it was, with the time of its deletion |
| Databases.FoundWhileLive | src/anbar/db.py:256-586 | over every history: a live or restored object is found, not deleted, with its content and every download since counted, until it is discarded |
| Databases.SoftDeleteRestore | src/anbar/db.py:492-509 | restore undoes a soft delete if and only if the row was live |
| JobQueues.NextQueued | src/anbar/jobstore.py:60-69 | the first queued row of the kind by time, then id |
| JobQueues.JobQueue.SubmitJob | src/anbar/jobqueue.py:69-84 | only the three kinds are accepted; the row is queued or started, other waiting rows may start, and nothing else changes |
| JobQueues.JobQueue.Wake | src/anbar/jobqueue.py:87-100 | starts queued jobs in order until the cap is reached or none is left |
| JobQueues.JobQueue.EndTask | src/anbar/jobqueue.py:105-134 | a normal return makes a running row done and leaves one the handler closed; an exception makes it an error, or done if its message is empty; a cancellation makes an unfinished row an error; the slot is freed, waiting rows may start, and no other row changes |
| JobQueues.JobQueue.HandlerFinishes | src/anbar/jobqueue.py:140-142 | a handler closes its own row: error exactly if it has a non-empty message |
| JobQueues.JobQueue.CancelJob | src/anbar/jobqueue.py:152-158 | exactly a queued job is cancelled, and becomes an error |
| JobQueues.JobQueue.DeleteJob | src/anbar/jobqueue.py:160-164 | only a finished row is deleted |
| JobQueues.JobQueue.StopQueue | src/anbar/jobqueue.py:177-180 | from then on nothing is started; live tasks end in steps of their own |
| JobQueues.JobQueue.Boot | src/anbar/jobstore.py:159-170 | exactly the queued and running rows become interrupted; no task is left |
| JobQueues.RunInv | src/anbar/jobqueue.py:69-134 | in every interleaving, with any ids: counters within caps; while not stopped each counter is the number of live tasks, and a queued job means its kind is at its cap |
| JobQueues.CapsKept | src/anbar/jobqueue.py:42-46 | in every run at most two ingests, one backup and one rebuild are under way, and that many whenever one has to wait and the queue is not stopped |
| JobQueues.LessIsLexicographic | src/anbar/jobstore.py:60-69 | the order of ids decides at the first character that differs, a prefix coming first |
| JobQueues.FreshInv | src/anbar/jobqueue.py:56-62 | a new process starts in such a state |
| JobQueues.NeverStartsTwice | src/anbar/jobqueue.py:87-100 | with new ids no job starts twice, across restarts too |
| JobQueues.EndedRowIsTerminal | src/anbar/jobqueue.py:105-142 | with new ids the row of an ended task is terminal: done after a normal return, error after a cancellation, error after an exception if and only if its message is not empty, else done |
| JobQueues.EmptyMessageIsDone | src/anbar/jobqueue.py:124-134 | an instance of that |
| JobQueues.Drains | src/anbar/jobqueue.py:105-134 | each completion takes exactly one job away, so queued + live completions empty a kind |
| JobQueues.NeverStuck | src/anbar/jobqueue.py:87-100 | while work is left a task is live |
| JobQueues.RunPast | src/anbar/jobstore.py:49-58 | in every run under a clock that does not go back no row is from the future |
| JobQueues.OvertakenOnlyInItsSecond | src/anbar/jobqueue.py:69-134 | over every such run: each job of the kind that starts while one waits was in front of it at the beginning, or was submitted later in the same second with a smaller id; and how many there can be |
| JobQueues.StartShrinksAhead | src/anbar/jobqueue.py:91-98 | each start takes one job away from in front of those still waiting |
| JobQueues.BoundedWaiting | src/anbar/jobqueue.py:87-134 | once the clock has passed a waiting job's second, the jobs in front of it only grow fewer and no more than those start before it |
| FloodPacing.SleepsFitBudget | src/anbar/storage/bot_backend.py:190-208 | the flood waits of one call sum to at most the budget and number at most floor(budget / 1.5) |
| FloodPacing.Store | src/anbar/storage/bot_backend.py:190-218 | a reply of 429, 402, 500 or 502 is waited out for its retry_after, or 3, plus half a second, exactly if that ends within the budget; success, another code and the first wait that does not fit end the call; it is decided within floor(budget / 1.5) + 1 posts |
| FloodPacing.Paced | src/anbar/storage/bot_backend.py:232-256 | over every interleaving of callers, posts do not overlap and each starts at least the gap after the previous one ended |
| FloodPacing.BeginsExactly | src/anbar/storage/bot_backend.py:236-240 | a caller with the lock may post from the moment the gap has passed since the last post, and is not kept longer |
| FloodPacing.OnlyTheHolder | src/anbar/storage/bot_backend.py:236-256 | while one caller has the lock no other can post, end or give up |
| FloodPacing.RateBound | src/anbar/storage/bot_backend.py:232-256 | at most w / gap + 1 posts start in a window of length w |
| Links.StepAgree | src/anbar/links.py:27-151 | every operation keeps: a kv entry exists exactly for an unrevoked row, with the same fields and count |
| Links.RunAgree | src/anbar/links.py:27-338 | so the stores agree over every history |
| Links.StepBacked | src/anbar/links.py:27-338 | even the deletion of objects keeps: no kv entry without an unrevoked row |
| Links.RegisterAgrees | src/anbar/links.py:38-63 | they agree after a registration if and only if signature and name are not the empty string |
| Links.PurgeObjectAgrees | src/anbar/object_service.py:303-314 | they agree after an object is destroyed if and only if it had no unrevoked link |
| Links.PurgeLeavesLiveRow | src/anbar/object_service.py:303-314 | an instance: the row of a live link survives its object |
| Links.RevokeKills | src/anbar/links.py:105-121 | revoke succeeds exactly for a registered unrevoked link and changes no other link's standing |
| Links.RevokeAllKills | src/anbar/links.py:124-151 | after revoking all, every link either store knew is revoked and no album opens |
| Links.RevokedForGood | src/anbar/links.py:95-121 | a revoked link stays revoked or expired until the same object and expiry are registered again |
| Links.LastLinkTakesTags | src/anbar/links.py:341-352 | an object loses its tags exactly when its last unrevoked link is revoked |
| Links.LinkRegistry.RegisterLink | src/anbar/links.py:27-63 | both stores hold the new link with what was registered, unrevoked and uncounted; a cap of 0 is none |
| Links.LinkStays | src/anbar/links.py:27-92 | over every history: until a link is replaced, revoked, destroyed with its object or purged after its expiry, both stores keep it as it was, counting exactly the full downloads before its expiry |
| Links.AlbumOpensUntil | src/anbar/api/download.py:989-993 | over every history: a shared album opens exactly before its expiry, or always if it has none, until it is shared again or everything is revoked |
| Links.RevokedOnlyByRevoking | src/anbar/links.py:95-121 | over every history: no link is revoked before its expiry unless it, or everything, is revoked |
| Links.LinkRegistry.BumpLinkDownloads | src/anbar/links.py:66-92 | the loop over kv counts the same links as the table statement: exactly the unrevoked, unexpired ones of the object |
| Links.LinkRegistry.RevokeLink | src/anbar/links.py:105-121 | row, entry and tombstone of exactly that link, its object losing its tags exactly if no entry and no live row is left; false exactly when neither store knows an unrevoked link |
| Links.LinkRegistry.RevokeAllLinks | src/anbar/links.py:124-151 | everything is revoked, albums too, and the tags of every listed object go, whatever the order of the loop; and the number of rows and albums |
| Links.LinkRegistry.PurgeExpired | src/anbar/links.py:314-338 | unrevoked rows and entries go at their expiry, revoked rows and tombstones a week later, and the tags of objects left bare; and how many there were |
| Links.LinkRegistry.PurgeObjectLinks | src/anbar/object_service.py:303-314 | the object's kv entries, tombstones and tags go; its rows stay |
| ZipNames.FirstFree | src/anbar/api/download.py:855-860 | the least free candidate, found within one try more than names are used |
| ZipNames.CandidateNumbered | src/anbar/api/download.py:855-860 | a candidate has "-" and its number before the extension, or at the end |
| ZipNames.NamesDistinct | src/anbar/api/download.py:848-862 | no two archive members share a name |
| ZipNames.EntryNames | src/anbar/api/download.py:848-862 | each member gets its first candidate that no earlier member has |

## Left out

- Storage.Channel.Store: a send that reports an error is taken to have posted nothing; in the program a send that timed out may have been posted, and then leaves a message no manifest mentions.
- Storage.Channel.Delete: file ids and message ids are one number here; a deletion needs the message id, a fetch the file id.
- ObjectStore.ObjectService.StoreStream: captions and the thumbnail chunk; cancellation while a bot's own file id is awaited after a post.
- ObjectStore.FailedUpload: says nothing about blobs whose deletion failed, beyond that no unrelated blob is deleted.
- ReedSolomon.RsEncode: nsym at most 512, the length of the table it reads.
- QrMatrix.BuildMatrix: starts from the version and the final bits; the mode and length header, capacity and padding of the payload are not part of this model.
- Downloads.Server.AskBot: the bot's timeout and its own retries are one nondeterministic answer.
- Downloads.Server.Download: authentication, response headers, ETags, download counters and caps; the Range header is taken after the regular expression has matched.
- Downloads.Server.OthersRun: what others may do is assumed to be what is proved of every request here (Downloads.Kept): coherent caches, no blob or committed file rewritten.
- Downloads.Server.Stream: the prefetch of the next chunk ends before the current one is sent; in the program it overlaps with sending.
- Histories.App.Put: an upload id that already has a checkpoint at the first attempt is not resumed from; resuming an older checkpoint is covered by EndToEnd.UploadThenDownload.  An empty upload is stored without a row; in the program its commit raises an error.
- Histories.App.Serve: each upload is taken to get a new id; operations follow one another, with other requests running inside them.
- Databases.Database.CopyFolderRows: a generated id that already exists is skipped; in the program it fails the statement.
- Databases.Database.RenameFolderRows: which rows the unescaped LIKE pattern matches is a parameter.
- JobQueues.JobQueue.Boot: the pruning of old rows, progress and result columns are left out.
- Links.LinkRegistry.ShareAlbum: an album is its token and expiry; its members and page are not part of this model.
- JobQueues.JobQueue.StopQueue: cancelling the live tasks is left to the steps in which they end.
- The pipelined iterator (one producer, one queue, one consumer in order): easier than the parallel one.
- AsyncIteratorReader: the same loop as the request-body reader, with progress callbacks.
- The rate limiter, listing, statistics and settings of the database; cryptography; HTTP routing, HTML, CLI.
- Rebuilding the database from captions, subtitles, thumbnails, S3 listing, ZIP encoding.
