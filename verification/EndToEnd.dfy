/** The object layer from the request body to the byte range: upload, commit, JSON manifest, download. */
module EndToEnd {
  import opened Bytes
  import opened Manifests
  import opened Uploads
  import opened Storage
  import opened ObjectStore
  import opened Caches
  import opened Downloads

  /** Nothing goes wrong with this upload. */
  ghost predicate Untroubled(limit: Option<nat>, ending: Ending, whole: seq<Byte>, before: Tally, after: Tally) {
    && ending == Complete && (limit.Some? ==> |whole| <= limit.value)
    && after.floods == before.floods && after.refusals == before.refusals && after.kills == before.kills
  }

  /** The upload handler: store, commit, drop the checkpoint.  It fails only for a reason; then run says
    * what it leaves behind. */
  method Upload(service: ObjectService, reader: BodyReader, ghost whole: seq<Byte>)
    returns (outcome: Outcome, row: Option<Row>, ghost run: Run)
    requires service.Valid() && service.chunks == [] && service.skipRemaining == service.cfg.resumeFrom
    requires service.cfg.key == None ==> service.cfg.resumeFrom == 0
    requires reader.Valid() && reader.Content() <= whole && (reader.Ending() == Complete ==> reader.Content() == whole)
    requires service.cfg.resumeFrom <= |Recorded(service.kv.rows, service.cfg.key)| ==>
      RecordedTrue(service.cfg, service.channel.blobs, service.channel.nextId, service.kv.rows,
                   Chunks(whole, service.chunkSize), service.cfg.resumeFrom)
    modifies service, reader, service.channel, service.pool, service.kv, service.caller
    ensures service.Valid() && run.Of(Chunks(whole, service.chunkSize))
    ensures run.cfg == service.cfg && run.r == outcome &&
      run.s0 == old(service.Now()).(theirs := old(service.channel.blobs))
    ensures run.s1 == service.Now().(rows := run.s1.rows) && (row == None ==> run.s1 == service.Now())
    ensures NothingRewritten(run.s0.blobs, run.s0.nextId, service.channel.blobs, service.channel.nextId)
    ensures OnlyOthers(run, old(service.channel.lost), service.channel.lost)
    ensures outcome.Stored? ==> outcome.hashed == whole
    ensures reader.Ending() == old(reader.Ending()) && NoFewer(old(service.caller.Counts()), service.caller.Counts())
    ensures outcome.Failed? ==>
      service.Caused(outcome.why, reader.Ending(), old(reader.Content()), whole, run.handed,
                     old(service.caller.Counts()), service.caller.Counts())
    ensures outcome == ResumeOutOfRange <==> service.cfg.resumeFrom > |Recorded(old(service.kv.rows), service.cfg.key)|
    ensures outcome != ResumeOutOfRange &&
            Untroubled(service.maxBytes, reader.Ending(), whole, old(service.caller.Counts()),
                       service.caller.Counts()) ==>
      outcome.Stored?
    ensures row.Some? <==> outcome.Stored? && whole != []
    ensures row.Some? ==> Recorded(service.kv.rows, service.cfg.key) == []
    ensures row.Some? ==>
      var m, parts := FromJson(row.value.manifest), Chunks(whole, service.chunkSize);
      && m.chunks == service.chunks && m.totalSize == |whole| && Concat(parts) == whole
      && row.value.size == |whole| && row.value.hashed == whole
      && Truthful(service.channel.blobs, service.channel.nextId, m.chunks, parts)
    ensures outcome.Stored? ==>
      (Holds(service.cfg, service.channel.blobs, service.chunks, Chunks(whole, service.chunkSize)) <==>
       RecordedHold(service.cfg, run.s0.blobs, run.s0.rows, Chunks(whole, service.chunkSize), service.cfg.resumeFrom))
  {
    hide Holds, RecordedHold, RecordedTrue, Truthful, Chunks, Concat, Fits, Recorded, NothingRewritten,
         Config.WellNamed, Run.Of, Channel.Valid, ObjectService.Caused, Untroubled;
    ghost var parts := Chunks(whole, service.chunkSize);
    outcome, run := service.StoreStream(reader, whole);
    RefusedExactly(run, parts);
    if outcome.Failed? {
      Troubled(service, outcome.why, reader.Ending(), old(reader.Content()), whole, run.handed,
               old(service.caller.Counts()), service.caller.Counts());
    }
    row := None;
    if outcome.Stored? {
      StoredTrue(run, parts);
      StoredExactly(run, parts);
      row := CommitStored(service, whole, outcome.hashed);
    }
  }

  /** _commit, and the checkpoint goes. */
  method CommitStored(service: ObjectService, ghost whole: seq<Byte>, hashed: seq<Byte>) returns (row: Option<Row>)
    requires service.chunkSize > 0
    requires Truthful(service.channel.blobs, service.channel.nextId, service.chunks, Chunks(whole, service.chunkSize))
    modifies service.kv
    ensures row.Some? <==> whole != []
    ensures row.Some? ==> Recorded(service.kv.rows, service.cfg.key) == []
    ensures row == None ==> service.kv.rows == old(service.kv.rows)
    ensures row.Some? ==>
      && FromJson(row.value.manifest) == Manifest(service.chunks, |whole|)
      && row.value.size == |whole| && row.value.hashed == hashed && Concat(Chunks(whole, service.chunkSize)) == whole
  {
    hide Truthful, Chunks, Concat, Fits, Recorded;
    ChunksFit(whole, service.chunkSize);
    SameCount(service.channel.blobs, service.channel.nextId, service.chunks, Chunks(whole, service.chunkSize));
    row := service.Commit("bot", hashed);
    if row.Some? {
      service.DropCheckpoint();
      CommittedManifest(service.channel.blobs, service.channel.nextId, service.chunks, whole, service.chunkSize);
    }
  }

  lemma Troubled(service: ObjectService, why: Failure, ending: Ending, arrived: seq<Byte>, whole: seq<Byte>,
                 handed: seq<seq<Byte>>, before: Tally, after: Tally)
    requires service.Caused(why, ending, arrived, whole, handed, before, after)
    ensures !Untroubled(service.maxBytes, ending, whole, before, after)
  {
  }

  lemma RefusedExactly(run: Run, parts: seq<seq<Byte>>)
    requires run.Of(parts)
    ensures run.r == ResumeOutOfRange <==> run.cfg.resumeFrom > |Recorded(run.s0.rows, run.cfg.key)|
    ensures run.r.Stored? ==> run.s1 == run.last
  {
  }

  lemma SameCount(blobs: map<Handle, seq<Byte>>, nextId: nat, chunks: seq<Chunk>, parts: seq<seq<Byte>>)
    requires Truthful(blobs, nextId, chunks, parts)
    ensures |chunks| == |parts|
  {
  }

  /** A handled failure, stated for the one a client causes by going silent: the upload can be resumed
    * exactly when it started from nothing and less than a chunk had arrived. */
  lemma DroppedConnection(service: ObjectService, run: Run, arrived: seq<Byte>, whole: seq<Byte>, before: Tally,
      after: Tally)
    requires service.chunkSize > 0 && run.cfg == service.cfg && run.Of(Chunks(whole, service.chunkSize))
    requires run.r == Failed(ClientStalled) && run.allDeleted && run.cfg.key.Some?
    requires service.Caused(ClientStalled, Stalled, arrived, whole, run.handed, before, after)
    requires Resumable(run.cfg, run.s0.blobs, run.s0.rows, Chunks(whole, service.chunkSize))
    ensures Resumable(run.cfg, run.s1.blobs, run.s1.rows, Chunks(whole, service.chunkSize)) <==>
            run.cfg.resumeFrom == 0 && |arrived| < service.chunkSize
  {
    hide Run.Of, Resumable;
    FailedUpload(run, Chunks(whole, service.chunkSize));
  }

  /** However the body is split into pieces, whatever the chunk size, the pool's rotation and its flood
    * retries, and whichever chunks were resumed from an earlier attempt: an upload that nothing troubles is
    * stored, and a stored object is answered with the bytes that were uploaded.  All of them, fetched from
    * the members that hold them, unless the client hangs up, or three fetches fail, or others delete a chunk,
    * or a chunk it resumed from was missing. */
  method UploadThenDownload(service: ObjectService, reader: BodyReader, ghost whole: seq<Byte>, server: Server,
          obj: string, h: RangeHeader, cacheOn: bool, useCache: bool, caller: Caller, client: Client)
    returns (outcome: Outcome, answer: Option<Response>, ghost run: Run)
    requires service.Valid() && service.chunks == [] && service.skipRemaining == service.cfg.resumeFrom
    requires service.cfg.key == None ==> service.cfg.resumeFrom == 0
    requires reader.Valid() && reader.Content() <= whole && (reader.Ending() == Complete ==> reader.Content() == whole)
    requires service.cfg.resumeFrom <= |Recorded(service.kv.rows, service.cfg.key)| ==>
      RecordedTrue(service.cfg, service.channel.blobs, service.channel.nextId, service.kv.rows,
                   Chunks(whole, service.chunkSize), service.cfg.resumeFrom)
    requires server.Valid() && server.channel == service.channel && obj in server.reserved && caller != service.caller
    requires server.cfg.names == service.cfg.names && server.cfg.backend == service.cfg.backend
    requires client.received == [] && !client.gone
    modifies service, reader, service.channel, service.pool, service.kv, service.caller
    modifies server, server.micro, server.disk, server.disk.disk, client, caller`failedOpens
    ensures run.Of(Chunks(whole, service.chunkSize)) && run.cfg == service.cfg && run.r == outcome
    ensures run.s0 == old(service.Now()).(theirs := old(service.channel.blobs))
    ensures outcome.Stored? ==> outcome.hashed == whole
    ensures outcome.Failed? ==>
      service.Caused(outcome.why, reader.Ending(), old(reader.Content()), whole, run.handed,
                     old(service.caller.Counts()), service.caller.Counts())
    ensures outcome == ResumeOutOfRange <==> service.cfg.resumeFrom > |Recorded(old(service.kv.rows), service.cfg.key)|
    ensures answer.Some? <==> outcome.Stored? && whole != []
    ensures answer.Some? ==>
      Answers(answer.value, client.received, client.gone, caller.failedOpens - old(caller.failedOpens),
              !(Places(service.cfg, service.chunks) <= service.channel.blobs.Keys), h, whole)
    ensures answer.Some? && answer.value.Body? ==> answer.value.end != FileVanished
    ensures outcome.Stored? &&
            RecordedHold(service.cfg, run.s0.blobs, run.s0.rows, Chunks(whole, service.chunkSize),
                         service.cfg.resumeFrom) ==>
      Places(service.cfg, service.chunks) <= service.channel.blobs.Keys ||
      Places(service.cfg, service.chunks) * service.channel.lost != {}
    ensures whole != [] && outcome != ResumeOutOfRange && !client.gone &&
            caller.failedOpens < old(caller.failedOpens) + 3 &&
            Places(service.cfg, service.chunks) !! service.channel.lost &&
            RecordedHold(service.cfg, run.s0.blobs, run.s0.rows, Chunks(whole, service.chunkSize),
                         service.cfg.resumeFrom) &&
            Untroubled(service.maxBytes, reader.Ending(), whole, old(service.caller.Counts()),
                       service.caller.Counts()) ==>
      answer.Some? && (answer.value.Body? ==> answer.value.end == AllSent)
  {
    hide Truthful, RecordedTrue, RecordedHold, Holds, Chunks, Server.Coherent, Concat, Config.WellNamed, Run.Of,
         Recorded, Untroubled, NothingRewritten, Channel.Valid, OnlyOthers, Places, ObjectService.Caused;
    var row;
    outcome, row, run := Upload(service, reader, whole);
    ghost var parts := Chunks(whole, service.chunkSize);
    if outcome.Stored? && Holds(service.cfg, service.channel.blobs, service.chunks, parts) {
      HeldPlaces(service.cfg, service.channel.blobs, service.chunks, parts);
    }
    answer := None;
    if row.Some? {
      SamePlaces(server.cfg, service.cfg, service.chunks);
      var r := PublishThenDownload(server, obj, FromJson(row.value.manifest), parts, whole, h, cacheOn, useCache,
                                   caller, client);
      answer := Some(r);
    }
  }

  lemma SamePlaces(a: Config, b: Config, chunks: seq<Chunk>)
    requires a.names == b.names && a.backend == b.backend
    ensures Places(a, chunks) == Places(b, chunks)
  {
    assert forall c :: c in chunks ==> a.HandleOf(c) == b.HandleOf(c);
  }

  /** A new object's chunks are where they were, or others have deleted them. */
  method PublishThenDownload(server: Server, obj: string, m: Manifest, ghost parts: seq<seq<Byte>>,
          ghost whole: seq<Byte>, h: RangeHeader, cacheOn: bool, useCache: bool, caller: Caller, client: Client)
    returns (r: Response)
    requires server.Valid() && obj in server.reserved && client.received == [] && !client.gone
    requires Truthful(server.channel.blobs, server.channel.nextId, m.chunks, parts)
    requires m.totalSize == |whole| && Concat(parts) == whole
    modifies server, server.channel, server.micro, server.disk, server.disk.disk, client, caller`failedOpens
    ensures Answers(r, client.received, client.gone, caller.failedOpens - old(caller.failedOpens), server.Lacking(m), h,
                    whole)
    ensures r.Body? ==> r.end != FileVanished
    ensures old(Places(server.cfg, m.chunks) <= server.channel.blobs.Keys) ==>
      Places(server.cfg, m.chunks) <= server.channel.blobs.Keys ||
      Places(server.cfg, m.chunks) * server.channel.lost != {}
    ensures !client.gone && caller.failedOpens < old(caller.failedOpens) + 3 && !server.Lacking(m) && r.Body? ==>
      r.end == AllSent
  {
    hide Truthful, Concat, DiskLRU.Valid, ChunkMicroCache.Valid, Server.Coherent, Kept, Server.CachedFile,
         Channel.Valid, Places;
    ghost var places := Places(server.cfg, m.chunks);
    server.Publish(obj, m, parts);
    ghost var published := server.View();
    r := server.Download(caller, obj, m, h, cacheOn, useCache, client);
    if places <= published.blobs.Keys && !(places <= server.channel.blobs.Keys) {
      LackingMeansLost(published, server.View(), published.pending, places);
    }
  }
}
