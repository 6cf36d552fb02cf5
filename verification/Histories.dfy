/** Whole histories of the deployment: objects are uploaded, by clients that resume what broke off, read,
  * trashed, restored and destroyed, while caches fill, expire and are pruned and other requests run.  The
  * routes are those of src/anbar/api/upload.py and src/anbar/api/download.py. */
module Histories {
  import opened Bytes
  import opened Manifests
  import opened Storage
  import opened ObjectStore
  import opened Caches
  import opened Downloads
  import opened EndToEnd
  import opened Pool = BotPool
  import Uploads

  /** An object row, as far as its content is concerned. */
  datatype FileRow = FileRow(manifest: JsonManifest, trashed: bool)

  type Attempt = seq<Uploads.Event>

  // ----- histories -----

  /** What is asked of the deployment.  An upload may take several attempts. */
  datatype Op =
    | Upload(id: string, content: seq<Byte>, key: Option<string>, chunkSize: nat, limit: Option<nat>,
        attempts: seq<Attempt>)
    | Read(id: string, header: RangeHeader, cacheOn: bool, useCache: bool)
    | Delete(id: string, purge: bool)
    | Restore(id: string)
    | Prune(lost: set<nat>)

  /** What came of it.  An upload's attempts have their outcomes; a stored object's blobs are at places, less
    * the bare ones, which were missing from the start.  file is the cached file a lookup found. */
  datatype Happening =
    | Uploaded(outcomes: seq<Outcome>, places: set<Handle>, bare: set<Handle>)
    | Answered(answer: Option<Response>, received: seq<Byte>, gone: bool, file: Option<nat>)
    | Done

  /** What can be seen between operations: the failures counted, the checkpoints' keys, the blobs there are
    * and those that others have deleted, and the cached files that others have removed. */
  datatype World = World(tally: Tally, keys: set<string>, held: set<Handle>, lost: set<Handle>, lostFiles: set<nat>)

  /** An object: its content, and where its blobs are. */
  datatype Item = Item(content: seq<Byte>, trashed: bool, places: set<Handle>, bare: set<Handle>)

  /** What a client sends in one attempt: a prefix of the content, all of it if the request is complete. */
  predicate Sends(content: seq<Byte>, attempt: Attempt) {
    && Uploads.Delivered(attempt) <= content
    && (Uploads.EndingOf(attempt) == Uploads.Complete ==> Uploads.Delivered(attempt) == content)
  }

  predicate Sane(op: Op) {
    op.Upload? ==> op.chunkSize > 0 && forall i :: 0 <= i < |op.attempts| ==> Sends(op.content, op.attempts[i])
  }

  predicate StoresAtLast(outcomes: seq<Outcome>) {
    outcomes != [] && outcomes[|outcomes| - 1].Stored?
  }

  /** The objects after an operation. */
  function After(items: map<string, Item>, op: Op, h: Happening): map<string, Item> {
    match op
    case Upload(id, content, _, _, _, _) =>
      if h.Uploaded? && StoresAtLast(h.outcomes) && content != [] then
        items[id := Item(content, false, h.places, h.bare)]
      else items
    case Delete(id, purge) =>
      if id !in items then items
      else if purge || items[id].trashed then items - {id}
      else items[id := items[id].(trashed := true)]
    case Restore(id) => if id in items then items[id := items[id].(trashed := false)] else items
    case Read(_, _, _, _) => items
    case Prune(_) => items
  }

  /** The objects there are after a history: what was stored and not destroyed since. */
  function Catalogue(ops: seq<Op>, log: seq<Happening>): map<string, Item>
    requires |ops| == |log|
  {
    if ops == [] then map[]
    else After(Catalogue(ops[..|ops| - 1], log[..|log| - 1]), ops[|ops| - 1], log[|log| - 1])
  }

  /** Every object's blobs are there, except those that others have deleted or that were missing from the
    * start. */
  ghost predicate AllThere(items: map<string, Item>, w: World) {
    forall id :: id in items ==> items[id].places <= w.held + w.lost + items[id].bare
  }

  /** Why an attempt at an upload ended as it did, given the failures counted before and after. */
  ghost predicate Explained(content: seq<Byte>, limit: Option<nat>, last: Attempt, outcome: Outcome, before: Tally,
                            after: Tally)
  {
    match outcome
    case Stored(hashed) => hashed == content
    case ResumeOutOfRange => false
    case Failed(TooLarge) => limit.Some? && |content| > limit.value
    case Failed(ClientStalled) => Uploads.EndingOf(last) == Uploads.Stalled
    case Failed(Flooded) => after.floods > before.floods
    case Failed(RefusedByBackend) => after.refusals > before.refusals
    case Failed(Died) => Uploads.EndingOf(last) == Uploads.Killed || after.kills > before.kills
  }

  /** Every one of these attempts was killed. */
  predicate AllDied(outcomes: seq<Outcome>) {
    forall i :: 0 <= i < |outcomes| ==> outcomes[i] == Failed(Failure.Died)
  }

  /** The client's upload id has no checkpoint yet. */
  predicate IsNew(op: Op, keys: set<string>)
    requires op.Upload?
  {
    op.key.Some? && op.key.value !in keys
  }

  /** An upload is tried until it is stored or there are no more attempts; each failure has its reason. */
  ghost predicate Tried(op: Op, h: Happening, before: World, after: World)
    requires op.Upload?
  {
    && h.Uploaded? && |h.outcomes| <= |op.attempts|
    && (forall i :: 0 <= i < |h.outcomes| ==>
         Explained(op.content, op.limit, op.attempts[i], h.outcomes[i], before.tally, after.tally))
    && (forall i :: 0 <= i < |h.outcomes| - 1 ==> !h.outcomes[i].Stored?)
    && (!StoresAtLast(h.outcomes) ==> |h.outcomes| == |op.attempts|)
  }

  /** What is stored is new.  It lacks only what it lacked from the start, and that only if a failed attempt
    * was rolled back before; if all earlier attempts died, each chunk was posted exactly once. */
  ghost predicate Fresh(op: Op, h: Happening, before: World, after: World)
    requires op.Upload? && h.Uploaded? && op.chunkSize > 0
  {
    StoresAtLast(h.outcomes) ==>
      var earlier := h.outcomes[..|h.outcomes| - 1];
      && h.places !! before.held && h.bare == h.places - after.held
      && (h.bare != {} ==> IsNew(op, before.keys) && !AllDied(earlier))
      && (AllDied(earlier) && (IsNew(op, before.keys) || earlier == []) ==>
           after.tally.posts == before.tally.posts + |Uploads.Chunks(op.content, op.chunkSize)|)
  }

  /** A chunk of the object is gone. */
  ghost predicate Damaged(item: Item, w: World) {
    item.places * w.lost != {} || item.bare != {}
  }

  /** A read is answered with the bytes of the object that is there, and only if it is there: all of them,
    * unless the client hangs up, or three fetches fail, or the object is damaged, or others remove the cached
    * file before it is opened.  Destroying an object deletes its blobs. */
  ghost predicate Right(items: map<string, Item>, op: Op, h: Happening, before: World, after: World) {
    match op
    case Upload(_, _, _, _, _, _) => Tried(op, h, before, after) && op.chunkSize > 0 && Fresh(op, h, before, after)
    case Read(id, header, cacheOn, _) =>
      && h.Answered?
      && if id in items && !items[id].trashed then
           && h.answer.Some?
           && Answers(h.answer.value, h.received, h.gone, after.tally.failedOpens - before.tally.failedOpens,
                      Damaged(items[id], after), header, items[id].content)
           && (h.answer.value.Body? && h.answer.value.end == FileVanished ==>
                cacheOn && h.file.Some? && h.file.value in after.lostFiles - before.lostFiles)
         else h.answer == None && h.received == []
    case Delete(id, purge) =>
      && h.Done?
      && (id in items && (purge || items[id].trashed) && after.tally.keptByError == before.tally.keptByError ==>
           items[id].places !! after.held)
    case _ => h.Done?
  }

  // ----- the deployment -----

  /** The row describes the object. */
  ghost predicate Tells(view: Shared, cfg: Config, id: string, row: FileRow, item: Item) {
    var m := FromJson(row.manifest);
    && DescribedIn(view, id, m) && Concat(view.objects[id]) == item.content && item.trashed == row.trashed
    && item.places == Places(cfg, m.chunks) && item.places <= view.blobs.Keys + view.lost + item.bare
  }

  /** Each row describes its object, and no two objects share a blob. */
  ghost predicate Told(view: Shared, cfg: Config, rows: map<string, FileRow>, items: map<string, Item>) {
    && items.Keys == rows.Keys
    && (forall id :: id in rows ==> Tells(view, cfg, id, rows[id], items[id]))
    && (forall id, other :: id in items && other in items && id != other ==> items[id].places !! items[other].places)
  }

  lemma StaysTelling(a: Shared, b: Shared, except: set<nat>, cfg: Config, id: string, row: FileRow, item: Item)
    requires Kept(a, b, except) && Tells(a, cfg, id, row, item)
    ensures Tells(b, cfg, id, row, item)
  {
    hide DescribedIn, Concat, Places;
    StaysDescribed(a, b, except, id, FromJson(row.manifest));
  }

  lemma StaysTold(a: Shared, b: Shared, except: set<nat>, cfg: Config, rows: map<string, FileRow>,
                  items: map<string, Item>)
    requires Kept(a, b, except) && Told(a, cfg, rows, items)
    ensures Told(b, cfg, rows, items)
  {
    hide Kept, Tells;
    forall id | id in rows
      ensures Tells(b, cfg, id, rows[id], items[id])
    {
      StaysTelling(a, b, except, cfg, id, rows[id], items[id]);
    }
  }

  /** One object is destroyed: the others keep their blobs. */
  lemma ToldWithout(a: Shared, b: Shared, except: set<nat>, cfg: Config, rows: map<string, FileRow>,
                    items: map<string, Item>, id: string)
    requires Told(a, cfg, rows, items) && id in rows && Kept(a, AsIfLost(b, items[id].places), except)
    ensures Told(b, cfg, rows - {id}, items - {id})
  {
    hide Kept, Tells;
    StaysTold(a, AsIfLost(b, items[id].places), except, cfg, rows, items);
    forall other | other in rows && other != id
      ensures Tells(b, cfg, other, rows[other], items[other])
    {
      TellsWithout(b, items[id].places, cfg, other, rows[other], items[other]);
    }
  }

  lemma TellsWithout(b: Shared, own: set<Handle>, cfg: Config, id: string, row: FileRow, item: Item)
    requires Tells(AsIfLost(b, own), cfg, id, row, item) && item.places !! own
    ensures Tells(b, cfg, id, row, item)
  {
    hide Truthful, Concat, Places;
  }

  /** One more object is committed, whose blobs are new. */
  lemma ToldOne(a: Shared, b: Shared, since: nat, cfg: Config, rows: map<string, FileRow>, items: map<string, Item>,
                id: string, row: FileRow, item: Item)
    requires Told(a, cfg, rows, items) && Kept(a.(reserved := b.reserved), b, {})
    requires Tells(b, cfg, id, row, item)
    requires forall other, h :: other in items && h in items[other].places ==> h.1 < since
    requires forall h :: h in item.places ==> since <= h.1
    ensures Told(b, cfg, rows[id := row], items[id := item])
  {
    hide Kept, Tells, Concat;
    forall other | other in rows
      ensures Tells(a.(reserved := b.reserved), cfg, other, rows[other], items[other])
    {
      TellsReserved(a, b.reserved, cfg, other, rows[other], items[other]);
    }
    StaysTold(a.(reserved := b.reserved), b, {}, cfg, rows, items);
    forall other | other in items
      ensures items[other].places !! item.places
    {
      assert forall h :: h in items[other].places ==> h !in item.places;
    }
  }

  lemma TellsReserved(a: Shared, reserved: set<string>, cfg: Config, id: string, row: FileRow, item: Item)
    requires Tells(a, cfg, id, row, item)
    ensures Tells(a.(reserved := reserved), cfg, id, row, item)
  {
    hide Truthful, Concat, Places;
  }

  /** The blobs of the objects there are have been posted. */
  lemma PlacesBelow(a: Shared, cfg: Config, rows: map<string, FileRow>, items: map<string, Item>)
    requires Told(a, cfg, rows, items)
    ensures forall id, h :: id in items && h in items[id].places ==> h.1 < a.nextId
  {
    hide DescribedIn, Concat;
    forall id, h | id in items && h in items[id].places
      ensures h.1 < a.nextId
    {
      var m := FromJson(rows[id].manifest);
      var i :| 0 <= i < |m.chunks| && h == cfg.HandleOf(m.chunks[i]);
      ChunkPlace(a, cfg, id, m, i);
    }
  }

  lemma ToldAllThere(view: Shared, cfg: Config, rows: map<string, FileRow>, items: map<string, Item>, w: World)
    requires Told(view, cfg, rows, items) && w.held == view.blobs.Keys && w.lost == view.lost
    ensures AllThere(items, w)
  {
    hide DescribedIn, Concat, Places;
    forall id | id in items
      ensures items[id].places <= w.held + w.lost + items[id].bare
    {
      assert Tells(view, cfg, id, rows[id], items[id]);
    }
  }

  lemma NamedAlike(names: seq<string>, backend: nat, key: Option<string>)
    requires Config(names, backend, None, 0).WellNamed()
    ensures Config(names, backend, key, 0).WellNamed()
  {
  }
  // ----- one attempt -----

  lemma NothingRecorded(cfg: Config, blobs: map<Handle, seq<Byte>>, nextId: nat, rows: map<string, Saved>,
                        parts: seq<seq<Byte>>)
    ensures RecordedTrue(cfg, blobs, nextId, rows, parts, 0) && RecordedHold(cfg, blobs, rows, parts, 0)
    ensures Recorded(rows, cfg.key) == [] ==>
      TrueRecord(cfg, blobs, nextId, rows, parts) && Resumable(cfg, blobs, rows, parts)
  {
  }

  /** Where chunks are found depends on the pool, not on the checkpoint. */
  lemma SameKey(a: Config, b: Config, blobs: map<Handle, seq<Byte>>, nextId: nat, rows: map<string, Saved>,
                parts: seq<seq<Byte>>, n: nat)
    requires a == b.(resumeFrom := a.resumeFrom)
    ensures RecordedTrue(a, blobs, nextId, rows, parts, n) == RecordedTrue(b, blobs, nextId, rows, parts, n)
    ensures TrueRecord(a, blobs, nextId, rows, parts) == TrueRecord(b, blobs, nextId, rows, parts)
    ensures RecordedHold(a, blobs, rows, parts, n) == RecordedHold(b, blobs, rows, parts, n)
    ensures Resumable(a, blobs, rows, parts) == Resumable(b, blobs, rows, parts)
  {
    hide TrueAt;
    SameHolds(a, b, blobs, rows, parts, n);
    SameHolds(a, b, blobs, rows, parts, |Recorded(rows, a.key)|);
  }

  lemma SameHolds(a: Config, b: Config, blobs: map<Handle, seq<Byte>>, rows: map<string, Saved>, parts: seq<seq<Byte>>,
                  n: nat)
    requires a == b.(resumeFrom := a.resumeFrom)
    ensures RecordedHold(a, blobs, rows, parts, n) == RecordedHold(b, blobs, rows, parts, n)
  {
    if n <= |Recorded(rows, a.key)| && n <= |parts| {
      var chunks := FromRecords(Recorded(rows, a.key)[..n]);
      forall i | 0 <= i < n
        ensures HoldsAt(a, blobs, chunks[i], i, parts[..n][i]) == HoldsAt(b, blobs, chunks[i], i, parts[..n][i])
      {
        assert a.HandleOf(chunks[i]) == b.HandleOf(chunks[i]);
      }
    }
  }

  lemma SendsPrefix(content: seq<Byte>, attempt: Attempt)
    requires Sends(content, attempt)
    ensures Uploads.Delivered(attempt) <= content
    ensures Uploads.EndingOf(attempt) == Uploads.Complete ==> Uploads.Delivered(attempt) == content
  {
  }

  lemma WhyItEnded(service: ObjectService, run: Run, content: seq<Byte>, attempt: Attempt, outcome: Outcome,
                   before: Tally, after: Tally)
    requires outcome != ResumeOutOfRange && NoFewer(before, after)
    requires outcome.Stored? ==> outcome.hashed == content
    requires outcome.Failed? ==>
      service.Caused(outcome.why, Uploads.EndingOf(attempt), Uploads.Delivered(attempt), content, run.handed, before,
                     after)
    ensures Explained(content, service.maxBytes, attempt, outcome, before, after)
  {
  }

  lemma ExplainedSince(content: seq<Byte>, limit: Option<nat>, last: Attempt, outcome: Outcome, before: Tally,
                       counts: Tally, after: Tally, later: Tally)
    requires Explained(content, limit, last, outcome, counts, after) && NoFewer(before, counts) && NoFewer(after, later)
    ensures Explained(content, limit, last, outcome, before, later)
  {
  }

  /** The checkpoint of one upload after an attempt: true, new, and usable unless the attempt was rolled
    * back. */
  lemma RecordAfter(cfg: Config, run: Run, parts: seq<seq<Byte>>, rows: map<string, Saved>, stored: bool)
    requires run.Of(parts) && cfg == run.cfg.(resumeFrom := cfg.resumeFrom)
    requires if stored then Recorded(rows, cfg.key) == [] else rows == run.s1.rows
    ensures TrueRecord(cfg, run.s0.blobs, run.s0.nextId, run.s0.rows, parts) ==>
            TrueRecord(cfg, run.s1.blobs, run.s1.nextId, rows, parts)
    ensures run.r == Failed(Failure.Died) && !stored && Resumable(cfg, run.s0.blobs, run.s0.rows, parts) ==>
            Resumable(cfg, run.s1.blobs, rows, parts)
  {
    hide Run.Of, Truthful, Holds;
    SameKey(cfg, run.cfg, run.s0.blobs, run.s0.nextId, run.s0.rows, parts, 0);
    SameKey(cfg, run.cfg, run.s1.blobs, run.s1.nextId, run.s1.rows, parts, 0);
    NothingRecorded(cfg, run.s1.blobs, run.s1.nextId, rows, parts);
    if TrueRecord(cfg, run.s0.blobs, run.s0.nextId, run.s0.rows, parts) {
      RecordNeverWrong(run, parts);
    }
    if run.r == Failed(Failure.Died) && Resumable(cfg, run.s0.blobs, run.s0.rows, parts) {
      KilledUpload(run, parts);
    }
  }

  /** The chunks resumed from are new when what the checkpoint records is. */
  lemma ResumedSince(cfg: Config, blobs: map<Handle, seq<Byte>>, nextId: nat, rows: map<string, Saved>,
                     parts: seq<seq<Byte>>, since: nat)
    requires RecordedTrue(cfg, blobs, nextId, rows, parts, cfg.resumeFrom)
    requires cfg.resumeFrom > 0 ==> RecordedSince(rows, cfg.key, since)
    ensures forall h :: h in Deletions(cfg, FromRecords(Recorded(rows, cfg.key)[..cfg.resumeFrom])) ==> since <= h.1
  {
    var n, rs := cfg.resumeFrom, Recorded(rows, cfg.key);
    var chunks := FromRecords(rs[..n]);
    forall h | h in Deletions(cfg, chunks)
      ensures since <= h.1
    {
      var c :| c in chunks && c.messageId.Some? && h == (cfg.HolderOf(c.backend), c.messageId.value);
      var i :| 0 <= i < |chunks| && chunks[i] == c;
      assert TrueAt(blobs, nextId, chunks[i], i, parts[..n][i]);
      assert rs[i].f == c.fileId;
    }
  }

  /** Blobs older than the upload are not touched by it. */
  lemma OlderStay(run: Run, parts: seq<seq<Byte>>, since: nat, before: set<Handle>, after: set<Handle>)
    requires run.Of(parts) && OnlyOthers(run, before, after) && run.r != ResumeOutOfRange
    requires run.cfg.resumeFrom <= |Recorded(run.s0.rows, run.cfg.key)|
    requires RecordedTrue(run.cfg, run.s0.blobs, run.s0.nextId, run.s0.rows, parts, run.cfg.resumeFrom)
    requires run.cfg.resumeFrom > 0 ==> RecordedSince(run.s0.rows, run.cfg.key, since)
    ensures before <= after
    ensures forall h :: h in run.s0.blobs && h.1 < since ==> h in run.s1.blobs || h in after
  {
    hide Run.Of, RecordedTrue, RecordedSince, Deletions, Recorded, FromRecords;
    ResumedSince(run.cfg, run.s0.blobs, run.s0.nextId, run.s0.rows, parts, since);
  }

  /** What an attempt posted. */
  lemma PostsOf(run: Run, parts: seq<seq<Byte>>)
    requires run.Of(parts) && run.cfg.resumeFrom <= |Recorded(run.s0.rows, run.cfg.key)|
    requires RecordedTrue(run.cfg, run.s0.blobs, run.s0.nextId, run.s0.rows, parts, run.cfg.resumeFrom)
    ensures run.r.Stored? ==> run.s1.posts == run.s0.posts + |parts| - run.cfg.resumeFrom
    ensures run.r == Failed(Failure.Died) && run.cfg.key.Some? &&
            run.cfg.resumeFrom == |Recorded(run.s0.rows, run.cfg.key)| ==>
      run.s1.posts == run.s0.posts + |Recorded(run.s1.rows, run.cfg.key)| - run.cfg.resumeFrom
  {
    hide HoldsAt, Keeps, AgreeBut, Mine, Truthful;
    if run.r == Failed(Failure.Died) && run.cfg.key.Some? &&
       run.cfg.resumeFrom == |Recorded(run.s0.rows, run.cfg.key)| {
      KilledCount(run, parts);
    }
  }

  /** The manifest of a stored upload whose chunks were posted since then. */
  ghost predicate Committed(m: Manifest, content: seq<Byte>, chunkSize: nat, since: nat, blobs: map<Handle, seq<Byte>>,
                            nextId: nat)
    requires chunkSize > 0
  {
    var parts := Uploads.Chunks(content, chunkSize);
    && m.totalSize == |content| && Concat(parts) == content && Truthful(blobs, nextId, m.chunks, parts)
    && forall c :: c in m.chunks ==> since <= c.fileId
  }

  lemma CommittedPlaces(cfg: Config, m: Manifest, content: seq<Byte>, chunkSize: nat, since: nat,
                        blobs: map<Handle, seq<Byte>>, nextId: nat)
    requires chunkSize > 0 && Committed(m, content, chunkSize, since, blobs, nextId)
    ensures forall h :: h in Places(cfg, m.chunks) ==> since <= h.1
  {
  }

  /** One attempt at an upload that goes on from resumeFrom chunks posted since then.  Whatever becomes of it,
    * the checkpoint records no wrong chunk and no older one, and no older blob goes unless others delete it;
    * a killed attempt leaves a checkpoint that can be gone on from. */
  method Transfer(channel: Channel, kv: Kv, pool: BotPool, caller: Caller, backend: nat, content: seq<Byte>,
                  key: Option<string>, resumeFrom: nat, chunkSize: nat, limit: Option<nat>, attempt: Attempt,
                  ghost since: nat)
    returns (outcome: Outcome, row: Option<Row>)
    requires channel.Valid() && Config(pool.names, backend, key, 0).WellNamed() && chunkSize > 0
    requires Sends(content, attempt) && resumeFrom <= |Recorded(kv.rows, key)| && since <= channel.nextId
    requires RecordedTrue(Config(pool.names, backend, key, 0), channel.blobs, channel.nextId, kv.rows,
                          Uploads.Chunks(content, chunkSize), resumeFrom)
    requires resumeFrom > 0 ==> RecordedSince(kv.rows, key, since)
    modifies channel, kv, pool, caller
    ensures channel.Valid() && Explained(content, limit, attempt, outcome, old(caller.Counts()), caller.Counts())
    ensures NoFewer(old(caller.Counts()), caller.Counts())
    ensures NothingRewritten(old(channel.blobs), old(channel.nextId), channel.blobs, channel.nextId)
    ensures old(channel.lost) <= channel.lost
    ensures forall h :: h in old(channel.blobs) && h.1 < since ==> h in channel.blobs || h in channel.lost
    ensures var cfg, parts := Config(pool.names, backend, key, 0), Uploads.Chunks(content, chunkSize);
            && (TrueRecord(cfg, old(channel.blobs), old(channel.nextId), old(kv.rows), parts) ==>
                 TrueRecord(cfg, channel.blobs, channel.nextId, kv.rows, parts))
            && (outcome == Failed(Failure.Died) && Resumable(cfg, old(channel.blobs), old(kv.rows), parts) ==>
                 Resumable(cfg, channel.blobs, kv.rows, parts))
    ensures RecordedSince(old(kv.rows), key, since) ==> RecordedSince(kv.rows, key, since)
    ensures row.Some? <==> outcome.Stored? && content != []
    ensures row.Some? ==>
      var m, cfg, parts := FromJson(row.value.manifest), Config(pool.names, backend, key, 0),
                           Uploads.Chunks(content, chunkSize);
      && Committed(m, content, chunkSize, since, channel.blobs, channel.nextId)
      && (RecordedHold(cfg, old(channel.blobs), old(kv.rows), parts, resumeFrom) ==>
           Places(cfg, m.chunks) <= channel.blobs.Keys)
    ensures outcome.Stored? ==>
      caller.posts == old(caller.posts) + |Uploads.Chunks(content, chunkSize)| - resumeFrom
    ensures outcome == Failed(Failure.Died) && key.Some? && resumeFrom == |Recorded(old(kv.rows), key)| ==>
      caller.posts == old(caller.posts) + |Recorded(kv.rows, key)| - resumeFrom
  {
    hide Truthful, TrueRecord, RecordedTrue, RecordedHold, RecordedSince, Resumable, Uploads.Chunks, Concat, Recorded,
         NothingRewritten, Run.Of, ObjectService.Caused, Explained, Untroubled, Holds, Sends, OnlyOthers, Places,
         Channel.Valid, Config.WellNamed;
    ghost var cfg, parts := Config(pool.names, backend, key, 0), Uploads.Chunks(content, chunkSize);
    NothingKeyed(kv.rows, key);
    var service := new ObjectService(channel, kv, pool, caller, backend, key, resumeFrom, chunkSize, limit);
    var reader := new Uploads.BodyReader(attempt);
    ghost var run;
    SendsPrefix(content, attempt);
    SameKey(cfg, service.cfg, channel.blobs, channel.nextId, kv.rows, parts, resumeFrom);
    outcome, row, run := EndToEnd.Upload(service, reader, content);
    WhyItEnded(service, run, content, attempt, outcome, old(caller.Counts()), caller.Counts());
    AttemptEnds(cfg, run, parts, since, old(channel.lost), channel.lost, kv.rows, row.Some?);
    if row.Some? {
      SamePlaces(cfg, service.cfg, service.chunks);
      if Holds(service.cfg, channel.blobs, service.chunks, parts) {
        HeldPlaces(service.cfg, channel.blobs, service.chunks, parts);
      }
    }
  }

  lemma NothingKeyed(rows: map<string, Saved>, key: Option<string>)
    ensures key == None ==> Recorded(rows, key) == []
  {
  }

  /** All that the attempt's run says, together. */
  lemma AttemptEnds(cfg: Config, run: Run, parts: seq<seq<Byte>>, since: nat, before: set<Handle>, after: set<Handle>,
                    rows: map<string, Saved>, stored: bool)
    requires run.Of(parts) && cfg == run.cfg.(resumeFrom := cfg.resumeFrom) && run.r != ResumeOutOfRange
    requires OnlyOthers(run, before, after) && since <= run.s0.nextId
    requires run.cfg.resumeFrom <= |Recorded(run.s0.rows, run.cfg.key)|
    requires RecordedTrue(run.cfg, run.s0.blobs, run.s0.nextId, run.s0.rows, parts, run.cfg.resumeFrom)
    requires run.cfg.resumeFrom > 0 ==> RecordedSince(run.s0.rows, run.cfg.key, since)
    requires if stored then Recorded(rows, cfg.key) == [] else rows == run.s1.rows
    ensures before <= after
    ensures forall h :: h in run.s0.blobs && h.1 < since ==> h in run.s1.blobs || h in after
    ensures TrueRecord(cfg, run.s0.blobs, run.s0.nextId, run.s0.rows, parts) ==>
            TrueRecord(cfg, run.s1.blobs, run.s1.nextId, rows, parts)
    ensures run.r == Failed(Failure.Died) && !stored && Resumable(cfg, run.s0.blobs, run.s0.rows, parts) ==>
            Resumable(cfg, run.s1.blobs, rows, parts)
    ensures RecordedSince(run.s0.rows, cfg.key, since) ==> RecordedSince(rows, cfg.key, since)
    ensures forall c :: c in run.s1.chunks ==> since <= c.fileId
    ensures run.r.Stored? ==> run.s1.posts == run.s0.posts + |parts| - run.cfg.resumeFrom
    ensures run.r == Failed(Failure.Died) && !stored && run.cfg.key.Some? &&
            run.cfg.resumeFrom == |Recorded(run.s0.rows, run.cfg.key)| ==>
      run.s1.posts == run.s0.posts + |Recorded(rows, run.cfg.key)| - run.cfg.resumeFrom
  {
    hide Run.Of, OnlyOthers, RecordedTrue, TrueRecord, Resumable, Recorded;
    RecordAfter(cfg, run, parts, rows, stored);
    OlderStay(run, parts, since, before, after);
    RunSince(run, parts, since);
    PostsOf(run, parts);
  }
  // ----- several attempts -----

  /** What an attempt depends on and changes. */
  datatype Point = Point(blobs: map<Handle, seq<Byte>>, nextId: nat, rows: map<string, Saved>, tally: Tally)

  /** One attempt of an upload, from s to t. */
  ghost predicate Attempted(cfg: Config, op: Op, resumeFrom: nat, attempt: Attempt, outcome: Outcome, since: nat,
                            s: Point, t: Point)
    requires op.Upload? && op.chunkSize > 0
  {
    var parts := Uploads.Chunks(op.content, op.chunkSize);
    && Explained(op.content, op.limit, attempt, outcome, s.tally, t.tally) && NoFewer(s.tally, t.tally)
    && (TrueRecord(cfg, s.blobs, s.nextId, s.rows, parts) ==> TrueRecord(cfg, t.blobs, t.nextId, t.rows, parts))
    && (RecordedSince(s.rows, cfg.key, since) ==> RecordedSince(t.rows, cfg.key, since))
    && (outcome == Failed(Failure.Died) && Resumable(cfg, s.blobs, s.rows, parts) ==>
         Resumable(cfg, t.blobs, t.rows, parts))
    && (outcome.Stored? ==> t.tally.posts == s.tally.posts + |parts| - resumeFrom)
    && (outcome == Failed(Failure.Died) && cfg.key.Some? && resumeFrom == |Recorded(s.rows, cfg.key)| ==>
         t.tally.posts == s.tally.posts + |Recorded(t.rows, cfg.key)| - resumeFrom)
  }

  /** Several attempts have failed. */
  ghost predicate Trying(cfg: Config, op: Op, outcomes: seq<Outcome>, since: nat, isNew: bool, before: Tally,
                         now: Point)
    requires op.Upload? && op.chunkSize > 0
  {
    var parts := Uploads.Chunks(op.content, op.chunkSize);
    && |outcomes| <= |op.attempts| && NoFewer(before, now.tally) && (isNew ==> cfg.key.Some?)
    && (forall j :: 0 <= j < |outcomes| ==>
         && !outcomes[j].Stored?
         && Explained(op.content, op.limit, op.attempts[j], outcomes[j], before, now.tally))
    && (isNew ==> TrueRecord(cfg, now.blobs, now.nextId, now.rows, parts) && RecordedSince(now.rows, cfg.key, since))
    && (isNew && AllDied(outcomes) ==>
         && Resumable(cfg, now.blobs, now.rows, parts)
         && now.tally.posts == before.posts + |Recorded(now.rows, cfg.key)|)
    && (outcomes == [] ==> now.tally.posts == before.posts)
  }

  lemma TryingStarts(cfg: Config, op: Op, since: nat, isNew: bool, now: Point)
    requires op.Upload? && op.chunkSize > 0 && (isNew ==> cfg.key.Some? && cfg.key.value !in now.rows)
    ensures Trying(cfg, op, [], since, isNew, now.tally, now)
  {
    NothingRecorded(cfg, now.blobs, now.nextId, now.rows, Uploads.Chunks(op.content, op.chunkSize));
  }

  /** What the next attempt goes on from. */
  lemma TryingGoesOn(cfg: Config, op: Op, outcomes: seq<Outcome>, since: nat, isNew: bool, before: Tally, now: Point)
    requires op.Upload? && op.chunkSize > 0 && Trying(cfg, op, outcomes, since, isNew, before, now)
    ensures var n := if isNew then |Recorded(now.rows, cfg.key)| else 0;
            var parts := Uploads.Chunks(op.content, op.chunkSize);
            && RecordedTrue(cfg, now.blobs, now.nextId, now.rows, parts, n)
            && (n > 0 ==> RecordedSince(now.rows, cfg.key, since))
            && (AllDied(outcomes) || !isNew ==> RecordedHold(cfg, now.blobs, now.rows, parts, n))
  {
    NothingRecorded(cfg, now.blobs, now.nextId, now.rows, Uploads.Chunks(op.content, op.chunkSize));
  }

  lemma EarlierExplained(cfg: Config, op: Op, outcomes: seq<Outcome>, since: nat, isNew: bool, before: Tally, s: Point,
                         later: Tally)
    requires op.Upload? && op.chunkSize > 0 && Trying(cfg, op, outcomes, since, isNew, before, s)
    requires NoFewer(s.tally, later)
    ensures forall j :: 0 <= j < |outcomes| ==>
      Explained(op.content, op.limit, op.attempts[j], outcomes[j], before, later)
  {
    hide Explained;
    forall j | 0 <= j < |outcomes|
      ensures Explained(op.content, op.limit, op.attempts[j], outcomes[j], before, later)
    {
      ExplainedSince(op.content, op.limit, op.attempts[j], outcomes[j], before, before, s.tally, later);
    }
  }

  lemma TryingFails(cfg: Config, op: Op, outcomes: seq<Outcome>, since: nat, isNew: bool, before: Tally, s: Point,
                    n: nat, outcome: Outcome, t: Point)
    requires op.Upload? && op.chunkSize > 0 && Trying(cfg, op, outcomes, since, isNew, before, s)
    requires |outcomes| < |op.attempts| && !outcome.Stored?
    requires n == if isNew then |Recorded(s.rows, cfg.key)| else 0
    requires Attempted(cfg, op, n, op.attempts[|outcomes|], outcome, since, s, t)
    ensures Trying(cfg, op, outcomes + [outcome], since, isNew, before, t)
  {
    hide Explained, TrueRecord, RecordedSince, Resumable, Recorded;
    var more := outcomes + [outcome];
    EarlierExplained(cfg, op, outcomes, since, isNew, before, s, t.tally);
    ExplainedSince(op.content, op.limit, op.attempts[|outcomes|], outcome, before, s.tally, t.tally, t.tally);
    if AllDied(more) {
      assert more[|outcomes|] == outcome && forall j :: 0 <= j < |outcomes| ==> more[j] == outcomes[j];
      assert AllDied(outcomes);
    }
  }

  lemma TryingStores(cfg: Config, op: Op, outcomes: seq<Outcome>, since: nat, isNew: bool, before: World, s: Point,
                     n: nat, outcome: Outcome, t: Point, after: World, h: Happening)
    requires op.Upload? && op.chunkSize > 0 && Trying(cfg, op, outcomes, since, isNew, before.tally, s)
    requires |outcomes| < |op.attempts| && outcome.Stored? && isNew == IsNew(op, before.keys)
    requires n == if isNew then |Recorded(s.rows, cfg.key)| else 0
    requires Attempted(cfg, op, n, op.attempts[|outcomes|], outcome, since, s, t) && after.tally == t.tally
    requires h.Uploaded? && h.outcomes == outcomes + [outcome]
    requires h.places !! before.held && h.bare == h.places - after.held
    requires AllDied(outcomes) || !isNew ==> h.bare == {}
    ensures Tried(op, h, before, after) && Fresh(op, h, before, after)
  {
    hide Explained, TrueRecord, RecordedSince, Resumable, Recorded;
    EarlierExplained(cfg, op, outcomes, since, isNew, before.tally, s, t.tally);
    ExplainedSince(op.content, op.limit, op.attempts[|outcomes|], outcome, before.tally, s.tally, t.tally, t.tally);
    assert h.outcomes[..|h.outcomes| - 1] == outcomes;
    assert forall j :: 0 <= j < |outcomes| ==> h.outcomes[j] == outcomes[j];
  }

  lemma TryingEnds(cfg: Config, op: Op, since: nat, isNew: bool, before: World, now: Point, after: World, h: Happening)
    requires op.Upload? && op.chunkSize > 0 && h.Uploaded? && |h.outcomes| == |op.attempts|
    requires Trying(cfg, op, h.outcomes, since, isNew, before.tally, now) && after.tally == now.tally
    ensures Tried(op, h, before, after) && Fresh(op, h, before, after) && !StoresAtLast(h.outcomes)
  {
    hide Explained, TrueRecord, RecordedSince, Resumable, Recorded;
  }

  lemma KeptIds(a: Shared, b: Shared, except: set<nat>)
    requires Kept(a, b, except)
    ensures a.nextId <= b.nextId
  {
  }

  /** Blobs older than start stay through an attempt, unless others delete them. */
  lemma OlderKept(start: Shared, b: Shared, c: Shared)
    requires Kept(start, b, {}) && NothingRewritten(b.blobs, b.nextId, c.blobs, c.nextId) && b.lost <= c.lost
    requires c == b.(blobs := c.blobs, nextId := c.nextId, lost := c.lost)
    requires forall h :: h in start.blobs ==> h.1 < start.nextId
    requires forall h :: h in b.blobs && h.1 < start.nextId ==> h in c.blobs || h in c.lost
    ensures Kept(start, c, {})
  {
  }

  // ----- the application -----

  class App {
    const channel: Channel
    const kv: Kv
    const pool: BotPool
    const server: Server
    const backend: nat
    var rows: map<string, FileRow>
    ghost var items: map<string, Item>

    ghost predicate Valid()
      reads this, channel, server, server.micro, server.disk, server.disk.disk
      ensures Valid() ==> items.Keys == rows.Keys
    {
      && server.channel == channel && server.cfg == Keyed(None) && server.Valid()
      && Told(server.View(), server.cfg, rows, items) && Keyed(None).WellNamed()
    }

    function Keyed(key: Option<string>): Config {
      Config(pool.names, backend, key, 0)
    }

    /** What can be seen now. */
    ghost function Seen(caller: Caller): World
      reads channel, kv, server, caller
    {
      World(caller.Counts(), kv.rows.Keys, channel.blobs.Keys, channel.lost, server.lostFiles)
    }

    constructor (channel: Channel, kv: Kv, pool: BotPool, backend: nat, cacheBytes: nat, seekBytes: nat,
                 ghost reserved: set<string>)
      requires channel.Valid() && Config(pool.names, backend, None, 0).WellNamed()
      ensures Valid() && this.channel == channel && this.kv == kv && this.pool == pool && this.backend == backend
      ensures fresh(server) && fresh(server.disk) && fresh(server.disk.disk) && fresh(server.micro)
      ensures rows == map[] && items == map[] && server.reserved == reserved
    {
      this.channel, this.kv, this.pool, this.backend := channel, kv, pool, backend;
      server := new Server(channel, Config(pool.names, backend, None, 0), cacheBytes, seekBytes, reserved);
      rows, items := map[], map[];
    }

    ghost function Here(caller: Caller): Point
      reads channel, kv, caller
    {
      Point(channel.blobs, channel.nextId, kv.rows, caller.Counts())
    }

    /** One attempt; what the objects have had since start they keep. */
    method Send(caller: Caller, op: Op, resumeFrom: nat, attempt: Attempt, ghost start: Shared)
      returns (outcome: Outcome, row: Option<Row>)
      requires Valid() && op.Upload? && op.chunkSize > 0 && Sends(op.content, attempt)
      requires Told(start, server.cfg, rows, items) && Kept(start, server.View(), {})
      requires forall h :: h in start.blobs ==> h.1 < start.nextId
      requires resumeFrom <= |Recorded(kv.rows, op.key)|
      requires RecordedTrue(Keyed(op.key), channel.blobs, channel.nextId, kv.rows,
                            Uploads.Chunks(op.content, op.chunkSize), resumeFrom)
      requires resumeFrom > 0 ==> RecordedSince(kv.rows, op.key, start.nextId)
      modifies channel, kv, pool, caller
      ensures Valid() && Kept(start, server.View(), {})
      ensures Attempted(Keyed(op.key), op, resumeFrom, attempt, outcome, start.nextId, old(Here(caller)), Here(caller))
      ensures row.Some? <==> outcome.Stored? && op.content != []
      ensures row.Some? ==>
        var m, cfg, parts := FromJson(row.value.manifest), Keyed(op.key), Uploads.Chunks(op.content, op.chunkSize);
        && Committed(m, op.content, op.chunkSize, start.nextId, channel.blobs, channel.nextId)
        && (RecordedHold(cfg, old(channel.blobs), old(kv.rows), parts, resumeFrom) ==>
             Places(cfg, m.chunks) <= channel.blobs.Keys)
    {
      hide Truthful, TrueRecord, RecordedTrue, RecordedHold, RecordedSince, Resumable, Uploads.Chunks, Concat, Recorded,
           NothingRewritten, Told, Config.WellNamed, Kept, Explained, DiskLRU.Valid, ChunkMicroCache.Valid,
           Server.Coherent, Sends, Committed, Places, Channel.Valid;
      ghost var before := server.View();
      NamedAlike(pool.names, backend, op.key);
      KeptIds(start, before, {});
      outcome, row := Transfer(channel, kv, pool, caller, backend, op.content, op.key, resumeFrom, op.chunkSize,
                               op.limit, attempt, start.nextId);
      OlderKept(start, before, server.View());
      StaysTold(start, server.View(), {}, server.cfg, rows, items);
    }

    /** A client uploads, and after every failure asks how many chunks are done and goes on from there. */
    method Put(op: Op, caller: Caller) returns (ghost h: Happening)
      requires Valid() && op.Upload? && Sane(op) && op.id in server.reserved
      modifies this, channel, kv, pool, server, caller
      ensures Valid() && h.Uploaded? && Tried(op, h, old(Seen(caller)), Seen(caller))
      ensures Fresh(op, h, old(Seen(caller)), Seen(caller))
      ensures old(server.reserved) - {op.id} <= server.reserved
      ensures items == After(old(items), op, h)
    {
      hide RecordedTrue, RecordedHold, RecordedSince, Uploads.Chunks, Told, Sends, Committed, Server.Valid, Recorded,
           Config.WellNamed, Kept, Places, NothingRewritten, Trying, Attempted, Tried, Fresh, AllDied;
      ghost var cfg, start, before := Keyed(op.key), server.View(), Seen(caller);
      var isNew := op.key.Some? && op.key.value !in kv.rows;
      PostedBefore();
      TryingStarts(cfg, op, start.nextId, isNew, Here(caller));
      KeptSelf(start, {});
      h := Uploaded([], {}, {});
      for i := 0 to |op.attempts|
        invariant Valid() && Kept(start, server.View(), {}) && h.Uploaded? && |h.outcomes| == i
        invariant Trying(cfg, op, h.outcomes, start.nextId, isNew, before.tally, Here(caller))
        invariant rows == old(rows) && items == old(items) && server.reserved == old(server.reserved)
      {
        ghost var s := Here(caller);
        var chunksDone := if isNew then |Recorded(kv.rows, op.key)| else 0;
        TryingGoesOn(cfg, op, h.outcomes, start.nextId, isNew, before.tally, s);
        var outcome, row := Send(caller, op, chunksDone, op.attempts[i], start);
        if outcome.Stored? {
          ghost var outcomes := h.outcomes;
          h := Uploaded(outcomes + [outcome], {}, {});
          if row.Some? {
            SamePlaces(server.cfg, cfg, FromJson(row.value.manifest).chunks);
            ghost var places := Enter(op, row.value.manifest, start);
            h := Uploaded(outcomes + [outcome], places, places - channel.blobs.Keys);
          }
          TryingStores(cfg, op, outcomes, start.nextId, isNew, before, s, chunksDone, outcome, Here(caller),
                       Seen(caller), h);
          return;
        }
        TryingFails(cfg, op, h.outcomes, start.nextId, isNew, before.tally, s, chunksDone, outcome, Here(caller));
        h := Uploaded(h.outcomes + [outcome], {}, {});
      }
      TryingEnds(cfg, op, start.nextId, isNew, before, Here(caller), Seen(caller), h);
    }

    lemma PostedBefore()
      requires Valid()
      ensures forall h :: h in channel.blobs ==> h.1 < channel.nextId
    {
    }

    /** The new row. */
    method Enter(op: Op, manifest: JsonManifest, ghost start: Shared) returns (ghost places: set<Handle>)
      requires Valid() && op.Upload? && op.id in server.reserved && op.chunkSize > 0
      requires Told(start, server.cfg, rows, items) && Kept(start, server.View(), {})
      requires forall h :: h in start.blobs ==> h.1 < start.nextId
      requires Committed(FromJson(manifest), op.content, op.chunkSize, start.nextId, channel.blobs, channel.nextId)
      modifies this, server
      ensures Valid() && server.reserved == old(server.reserved) - {op.id}
      ensures places == Places(server.cfg, FromJson(manifest).chunks) && places !! start.blobs.Keys
      ensures rows == old(rows)[op.id := FileRow(manifest, false)]
      ensures items == old(items)[op.id := Item(op.content, false, places, places - channel.blobs.Keys)]
    {
      hide Concat, Told, Server.Coherent, DiskLRU.Valid, ChunkMicroCache.Valid, Channel.Valid, Truthful, Uploads.Chunks,
           Kept, Config.WellNamed, Places;
      ghost var before, m := server.View(), FromJson(manifest);
      places := Places(server.cfg, m.chunks);
      CommittedPlaces(server.cfg, m, op.content, op.chunkSize, start.nextId, channel.blobs, channel.nextId);
      server.Publish(op.id, m, Uploads.Chunks(op.content, op.chunkSize));
      ghost var item := Item(op.content, false, places, places - channel.blobs.Keys);
      PlacesBelow(start, server.cfg, rows, items);
      ToldOne(before, server.View(), start.nextId, server.cfg, rows, items, op.id, FileRow(manifest, false), item);
      rows := rows[op.id := FileRow(manifest, false)];
      items := items[op.id := item];
    }

    /** A download: not found exactly for an id without a row or with a trashed one. */
    method Get(op: Op, caller: Caller, client: Client) returns (answer: Option<Response>, ghost h: Happening)
      requires Valid() && op.Read? && client.received == [] && !client.gone
      modifies channel, server, server.micro, server.disk, server.disk.disk, client, caller`failedOpens
      ensures Valid() && old(server.reserved) <= server.reserved
      ensures h.Answered? && h.answer == answer && h.received == client.received && h.gone == client.gone
      ensures h.file == old(server.CachedFile(op.id))
      ensures Right(items, op, h, old(Seen(caller)), Seen(caller))
    {
      hide Concat, DiskLRU.Valid, ChunkMicroCache.Valid, Channel.Valid, Server.Coherent, Truthful, Kept,
           Server.CachedFile, Config.WellNamed, Answers, Told, Tells, Places, Damaged;
      ghost var start, failed, file := server.View(), caller.failedOpens, server.CachedFile(op.id);
      answer := None;
      if op.id in rows && !rows[op.id].trashed {
        var m := FromJson(rows[op.id].manifest);
        Listed(start, server.cfg, rows, items, op.id);
        NotLost(op.id);
        var r := server.Download(caller, op.id, m, op.header, op.cacheOn, op.useCache, client);
        StaysTold(start, server.View(), start.pending, server.cfg, rows, items);
        Listed(server.View(), server.cfg, rows, items, op.id);
        LackingIsDamage(server.View(), server.cfg, rows, items, op.id, Seen(caller));
        AnswersMore(r, client.received, client.gone, caller.failedOpens - failed, server.Lacking(m),
                    Damaged(items[op.id], Seen(caller)), op.header, items[op.id].content);
        answer := Some(r);
      }
      AllListed(server.View(), server.cfg, rows, items, op.id);
      h := Answered(answer, client.received, client.gone, file);
    }

    lemma NotLost(id: string)
      requires Valid()
      ensures server.CachedFile(id).Some? ==> server.CachedFile(id).value !in server.lostFiles
    {
    }

    /** A deletion: the first one trashes the object, a second one or one with purge destroys it. */
    method Remove(op: Op, caller: Caller) returns (ghost h: Happening)
      requires Valid() && op.Delete?
      modifies this, channel, server, server.micro, server.disk, server.disk.disk, caller`keptByError
      ensures Valid() && old(server.reserved) <= server.reserved
      ensures Right(old(items), op, h, old(Seen(caller)), Seen(caller)) && items == After(old(items), op, h)
    {
      hide Server.Valid, Told, Server.View, Config.WellNamed;
      AllListed(server.View(), server.cfg, rows, items, op.id);
      h := Done;
      if op.id in rows {
        if op.purge || rows[op.id].trashed {
          Destroy(op.id, caller);
        } else {
          Trash(op.id);
        }
      }
    }

    /** soft_delete; the caches forget the object. */
    method Trash(id: string)
      requires Valid() && id in rows
      modifies this, server.micro, server.disk, server.disk.disk
      ensures Valid() && items == old(items)[id := old(items[id]).(trashed := true)]
    {
      hide Concat, DiskLRU.Valid, ChunkMicroCache.Valid, Channel.Valid, Server.Coherent, Truthful, Kept,
           Server.CachedFile, Config.WellNamed, Places, Told;
      ghost var before := server.View();
      server.Drop(id);
      StaysTold(before, server.View(), {}, server.cfg, rows, items);
      MarkedTrashed(server.View(), server.cfg, rows, items, id, true);
      rows := rows[id := rows[id].(trashed := true)];
      items := items[id := items[id].(trashed := true)];
    }

    /** The blobs are asked to go, the row goes, the caches forget the object.  Its blobs are gone if no
      * deletion fails; nobody else's go. */
    method Destroy(id: string, caller: Caller)
      requires Valid() && id in rows
      modifies this, channel, server, server.micro, server.disk, server.disk.disk, caller`keptByError
      ensures Valid() && old(server.reserved) <= server.reserved && items == old(items) - {id}
      ensures caller.keptByError == old(caller.keptByError) ==> old(items[id]).places !! channel.blobs.Keys
    {
      hide Concat, DiskLRU.Valid, ChunkMicroCache.Valid, Channel.Valid, Server.Coherent, Truthful, Kept,
           Server.CachedFile, Config.WellNamed, Places, Told;
      ghost var before := server.View();
      Listed(before, server.cfg, rows, items, id);
      server.DeleteBlobs(caller, id, FromJson(rows[id].manifest), server.objects[id]);
      ghost var middle := server.View();
      ToldWithout(before, middle, before.pending, server.cfg, rows, items, id);
      rows := rows - {id};
      items := items - {id};
      server.Drop(id);
      StaysTold(middle, server.View(), {}, server.cfg, rows, items);
    }

    /** Restores a trashed object. */
    method Untrash(op: Op) returns (ghost h: Happening)
      requires Valid() && op.Restore?
      modifies this
      ensures Valid() && h == Done && items == After(old(items), op, h)
    {
      hide Server.Valid, Server.View, Config.WellNamed, Told;
      h := Done;
      if op.id in rows {
        MarkedTrashed(server.View(), server.cfg, rows, items, op.id, false);
        rows := rows[op.id := rows[op.id].(trashed := false)];
        items := items[op.id := items[op.id].(trashed := false)];
      }
    }

    method LoseFiles(op: Op) returns (ghost h: Happening)
      requires Valid() && op.Prune?
      modifies server, server.disk.disk
      ensures Valid() && h == Done && old(server.reserved) <= server.reserved
    {
      hide Concat, DiskLRU.Valid, ChunkMicroCache.Valid, Channel.Valid, Server.Coherent, Truthful, Kept,
           Server.CachedFile, Config.WellNamed, Told;
      ghost var before := server.View();
      h := Done;
      server.Prune(op.lost);
      StaysTold(before, server.View(), {}, server.cfg, rows, items);
    }

    /** One operation. */
    method Perform(op: Op, caller: Caller) returns (answer: Option<Response>, received: seq<Byte>, ghost h: Happening)
      requires Valid() && Sane(op) && (op.Upload? ==> op.id in server.reserved)
      modifies this, channel, kv, pool, server, server.micro, server.disk, server.disk.disk, caller
      ensures Valid() && Right(old(items), op, h, old(Seen(caller)), Seen(caller)) && AllThere(items, Seen(caller))
      ensures items == After(old(items), op, h)
      ensures old(server.reserved) - (if op.Upload? then {op.id} else {}) <= server.reserved
      ensures h.Answered? ==> h.answer == answer && h.received == received
    {
      hide Server.Valid, Told, Config.WellNamed, Answers, Server.View, Server.CachedFile, Tried, Fresh, Sends, After,
           Damaged;
      answer, received := None, [];
      match op {
        case Upload(_, _, _, _, _, _) => h := Put(op, caller);
        case Read(_, _, _, _) =>
          var client := new Client();
          answer, h := Get(op, caller, client);
          received := client.received;
          ReadsOnly(items, op, h);
        case Delete(_, _) => h := Remove(op, caller);
        case Restore(_) => h := Untrash(op);
        case Prune(_) =>
          h := LoseFiles(op);
          ReadsOnly(items, op, h);
      }
      SeenAllThere(caller);
    }

    lemma SeenAllThere(caller: Caller)
      requires Valid()
      ensures AllThere(items, Seen(caller))
    {
      hide Server.Valid, Told;
      ToldAllThere(server.View(), server.cfg, rows, items, Seen(caller));
    }

    /** Over any history every read is answered with the bytes of the object that was stored under the id
      * and has not been destroyed or trashed since, and not found otherwise.  It is answered with all of them
      * unless the client leaves, three fetches fail, the object is damaged or its cached file removed by
      * others; and no object is damaged by what is done to another one.  worlds is what is seen before the
      * first operation and after each.  Each upload gets an id of its own. */
    method Serve(ops: seq<Op>, caller: Caller)
      returns (answers: seq<Option<Response>>, bodies: seq<seq<Byte>>, ghost log: seq<Happening>,
               ghost worlds: seq<World>)
      requires Valid() && rows == map[]
      requires forall k :: 0 <= k < |ops| ==> Sane(ops[k]) && (ops[k].Upload? ==> ops[k].id in server.reserved)
      requires forall j, k :: 0 <= j < k < |ops| && ops[j].Upload? && ops[k].Upload? ==> ops[j].id != ops[k].id
      modifies this, channel, kv, pool, server, server.micro, server.disk, server.disk.disk, caller
      ensures Valid() && |log| == |answers| == |bodies| == |ops| && |worlds| == |ops| + 1
      ensures worlds[0] == old(Seen(caller)) && worlds[|ops|] == Seen(caller)
      ensures forall k :: 0 <= k < |ops| ==>
        Right(Catalogue(ops[..k], log[..k]), ops[k], log[k], worlds[k], worlds[k + 1])
      ensures forall k :: 0 <= k <= |ops| ==> AllThere(Catalogue(ops[..k], log[..k]), worlds[k])
      ensures forall k :: 0 <= k < |ops| && log[k].Answered? ==>
        log[k].answer == answers[k] && log[k].received == bodies[k]
      ensures items == Catalogue(ops, log)
    {
      hide Server.Valid, Told, Config.WellNamed, Server.View, Right, After, Sane, Catalogue, AllThere;
      answers, bodies, log, worlds := [], [], [], [Seen(caller)];
      NothingYetStored(ops, Seen(caller));
      for i := 0 to |ops|
        invariant Valid() && |log| == |answers| == |bodies| == i && |worlds| == i + 1
        invariant worlds[0] == old(Seen(caller)) && worlds[i] == Seen(caller)
        invariant items == Catalogue(ops[..i], log)
        invariant forall k :: i <= k < |ops| && ops[k].Upload? ==> ops[k].id in server.reserved
        invariant forall k :: 0 <= k < i ==>
          Right(Catalogue(ops[..k], log[..k]), ops[k], log[k], worlds[k], worlds[k + 1])
        invariant forall k :: 0 <= k <= i ==> AllThere(Catalogue(ops[..k], log[..k]), worlds[k])
        invariant forall k :: 0 <= k < i && log[k].Answered? ==>
          log[k].answer == answers[k] && log[k].received == bodies[k]
      {
        var answer, body;
        ghost var h;
        answer, body, h := Perform(ops[i], caller);
        OneLater(ops, i, log, h);
        answers, bodies, log := answers + [answer], bodies + [body], log + [h];
        worlds := worlds + [Seen(caller)];
      }
      assert ops[..|ops|] == ops && log[..|ops|] == log;
    }
  }

  lemma ReadsOnly(items: map<string, Item>, op: Op, h: Happening)
    requires op.Read? || op.Prune?
    ensures After(items, op, h) == items
  {
  }

  lemma Listed(view: Shared, cfg: Config, rows: map<string, FileRow>, items: map<string, Item>, id: string)
    requires Told(view, cfg, rows, items) && id in rows
    ensures id in items && items[id].trashed == rows[id].trashed
    ensures DescribedIn(view, id, FromJson(rows[id].manifest)) && Concat(view.objects[id]) == items[id].content
    ensures items[id].places == Places(cfg, FromJson(rows[id].manifest).chunks)
  {
    assert Tells(view, cfg, id, rows[id], items[id]);
  }

  lemma AllListed(view: Shared, cfg: Config, rows: map<string, FileRow>, items: map<string, Item>, id: string)
    requires Told(view, cfg, rows, items)
    ensures id in items <==> id in rows
    ensures id in items ==> items[id].trashed == rows[id].trashed
  {
    if id in rows {
      Listed(view, cfg, rows, items, id);
    }
  }

  lemma MarkedTrashed(view: Shared, cfg: Config, rows: map<string, FileRow>, items: map<string, Item>, id: string,
                      trashed: bool)
    requires Told(view, cfg, rows, items) && id in rows
    ensures id in items
    ensures Told(view, cfg, rows[id := rows[id].(trashed := trashed)], items[id := items[id].(trashed := trashed)])
  {
    hide DescribedIn, Concat, Places;
    assert Tells(view, cfg, id, rows[id], items[id]);
    assert Tells(view, cfg, id, rows[id].(trashed := trashed), items[id].(trashed := trashed));
  }

  lemma LackingIsDamage(view: Shared, cfg: Config, rows: map<string, FileRow>, items: map<string, Item>, id: string,
                        w: World)
    requires Told(view, cfg, rows, items) && id in rows && w.lost == view.lost
    ensures id in items
    ensures !(Places(cfg, FromJson(rows[id].manifest).chunks) <= view.blobs.Keys) ==> Damaged(items[id], w)
  {
    hide DescribedIn, Concat, Places;
    assert Tells(view, cfg, id, rows[id], items[id]);
    if h :| h in items[id].places && h !in view.blobs {
      assert h in w.lost ==> h in items[id].places * w.lost;
    }
  }

  lemma AnswersMore(r: Response, received: seq<Byte>, gone: bool, failed: int, lacking: bool, damaged: bool,
                    h: RangeHeader, content: seq<Byte>)
    requires Answers(r, received, gone, failed, lacking, h, content) && (lacking ==> damaged)
    ensures Answers(r, received, gone, failed, damaged, h, content)
  {
  }

  lemma NothingYetStored(ops: seq<Op>, w: World)
    ensures Catalogue(ops[..0], []) == map[] && AllThere(map[], w)
  {
  }

  lemma OneLater(ops: seq<Op>, i: nat, log: seq<Happening>, h: Happening)
    requires |log| == i < |ops|
    ensures Catalogue(ops[..i + 1], log + [h]) == After(Catalogue(ops[..i], log), ops[i], h)
    ensures forall k :: 0 <= k <= i ==> (log + [h])[..k] == log[..k]
    ensures (log + [h])[..i + 1] == log + [h] && log[..i] == log
  {
    assert ops[..i + 1][..i] == ops[..i] && (log + [h])[..i] == log;
  }
}
