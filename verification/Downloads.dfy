/** Range requests, caches and streaming of src/anbar/api/download.py.  Other requests run
  * while a fetch is under way, between its tries, before its result is cached, and whenever a piece has
  * gone to the client: OthersRun stands for whatever they do. */
module Downloads {
  import opened Bytes
  import opened Lru
  import opened Caches
  import opened Manifests
  import opened Storage
  import opened ObjectStore

  // ----- the Range header -----

  /** The header after the regular expression has matched it, or not. */
  datatype RangeHeader = Absent | Malformed | Given(first: Option<nat>, last: Option<nat>)

  datatype RangeResult = Full | Part(start: int, end: int) | Unsatisfiable

  /** _parse_range; end is inclusive. */
  function ParseRange(h: RangeHeader, total: nat): RangeResult {
    match h
    case Absent => Full
    case Malformed => Unsatisfiable
    case Given(None, None) => Unsatisfiable
    case Given(None, Some(n)) =>
      if n == 0 then Unsatisfiable else Part(if total < n then 0 else total - n, total - 1)
    case Given(Some(a), last) =>
      var end := if last.Some? then last.value else total - 1;
      if a >= total || a > end then Unsatisfiable else Part(a, Min(end, total - 1))
  }

  /** The positions a byte-range selects, by section 14.1.2 of RFC 9110. */
  ghost predicate Selects(h: RangeHeader, total: nat, i: nat) {
    && i < total && h.Given?
    && match h
       case Given(None, None) => false
       case Given(None, Some(n)) => i + n >= total
       case Given(Some(a), None) => a <= i
       case Given(Some(a), Some(b)) => a <= i <= b
  }

  ghost predicate SelectsNothing(h: RangeHeader, total: nat) {
    forall i: nat :: !Selects(h, total, i)
  }

  /** A range is answered with exactly the positions it selects, and refused exactly when it selects
    * none, except that a non-empty suffix of an empty object is answered with no bytes. */
  lemma ParseRangeSelects(h: RangeHeader, total: nat)
    requires h.Given?
    ensures var r := ParseRange(h, total);
            && !r.Full?
            && (r.Part? ==>
                  0 <= r.start <= r.end + 1 <= total
                  && forall i: nat :: r.start <= i <= r.end <==> Selects(h, total, i))
            && (r.Unsatisfiable? <==>
                 SelectsNothing(h, total) && !(total == 0 && h.first == None && h.last.Some? && h.last.value > 0))
  {
    var r := ParseRange(h, total);
    if r.Part? && total > 0 {
      assert Selects(h, total, r.start);
    }
  }

  /** An instance of that exception: bytes=-1 of an empty object selects nothing and is not refused. */
  lemma EmptySuffixAnswered()
    ensures ParseRange(Given(None, Some(1)), 0) == Part(0, -1) && SelectsNothing(Given(None, Some(1)), 0)
  {
  }

  // ----- requests -----

  datatype Response =
    | RangeNotSatisfiable
    | Body(start: nat, length: nat, end: End)

  /** How a body ends. */
  datatype End = AllSent | ClientGone | BackendFailed | FileVanished

  /** The other end of the connection, which may hang up at any time. */
  class Client {
    var received: seq<Byte>
    var gone: bool

    constructor ()
      ensures received == [] && !gone
    {
      received, gone := [], false;
    }

    method Send(data: seq<Byte>)
      requires !gone
      modifies this
      ensures received == if gone then old(received) else old(received) + data
    {
      gone := *;
      if !gone {
        received := received + data;
      }
    }
  }

  const SLICE: nat := 128 * 1024
  const READ: nat := 1024 * 1024

  // ----- what all requests share -----

  /** The objects ever committed, by their chunks; the ids that certain uploads will get, and no other; the
    * channel, and the blobs others have deleted from it; and the cache directory, of whose files the pending
    * ones are being filled by some request, and the files others have removed from it. */
  datatype Shared = Shared(
    objects: map<string, seq<seq<Byte>>>,
    reserved: set<string>,
    blobs: map<Handle, seq<Byte>>,
    nextId: nat,
    lost: set<Handle>,
    files: map<nat, seq<Byte>>,
    nextPath: nat,
    pending: set<nat>,
    lostFiles: set<nat>)

  /** What no request does to another: objects only grow, no blob is rewritten, and no file that was there
    * is, except files.  Blobs go only if others delete them, and then they are lost; files may go.  No
    * pending file is finished by another request. */
  ghost predicate Kept(a: Shared, b: Shared, except: set<nat>)
    ensures Kept(a, b, except) ==> a.reserved <= b.reserved && a.lost <= b.lost && a.lostFiles <= b.lostFiles
  {
    && (forall o :: o in a.objects ==> o in b.objects && b.objects[o] == a.objects[o])
    && a.reserved <= b.reserved && NothingRewritten(a.blobs, a.nextId, b.blobs, b.nextId)
    && a.lost <= b.lost && (forall h :: h in a.blobs ==> h in b.blobs || h in b.lost) && a.lostFiles <= b.lostFiles
    && a.nextPath <= b.nextPath
    && (forall p :: p in b.files && p < a.nextPath && p !in except ==> p in a.files && b.files[p] == a.files[p])
    && (forall p :: p in a.pending && p !in except ==> p in b.pending)
    && (forall p :: p in b.pending && p < a.nextPath ==> p in a.pending)
  }

  lemma KeptSelf(a: Shared, except: set<nat>)
    ensures Kept(a, a, except)
  {
  }

  lemma KeptTwice(a: Shared, b: Shared, c: Shared, x: set<nat>, y: set<nat>, z: set<nat>)
    requires Kept(a, b, x) && Kept(b, c, y) && x <= z
    requires forall p :: p in y && (p < a.nextPath || p in a.pending) ==> p in z
    ensures Kept(a, c, z)
  {
  }

  /** Others run twice, and both times leave the files of mine alone. */
  lemma KeptOn(a: Shared, b: Shared, c: Shared, mine: set<nat>)
    requires Kept(a, b, a.pending - mine) && Kept(b, c, b.pending - mine)
    ensures Kept(a, c, a.pending - mine)
  {
    KeptTwice(a, b, c, a.pending - mine, b.pending - mine, a.pending - mine);
  }

  /** Since a request began, it and the others have kept to the rules; now the others do, or it does
    * something to a file it has created. */
  lemma KeptSince(a: Shared, b: Shared, c: Shared, mine: set<nat>)
    requires Kept(a, b, a.pending)
    requires Kept(b, c, b.pending - mine) || (Kept(b, c, mine) && forall p :: p in mine ==> p >= a.nextPath)
    ensures Kept(a, c, a.pending)
  {
    if Kept(b, c, b.pending - mine) {
      KeptTwice(a, b, c, a.pending, b.pending - mine, a.pending);
    } else {
      KeptTwice(a, b, c, a.pending, mine, a.pending);
    }
  }

  /** A step of a request that touches no file but its own is one that any other request expects. */
  lemma KeptForOthers(a: Shared, b: Shared, own: set<nat>, theirs: set<nat>)
    requires Kept(a, b, own) && own !! theirs && forall p :: p in own ==> p in a.pending || p >= a.nextPath
    ensures Kept(a, b, a.pending - theirs)
  {
    assert forall p :: p in own ==> p !in theirs;
  }

  lemma OthersGrow(a: Shared, gone: set<Handle>, member: nat, data: seq<Byte>)
    requires forall h :: h in a.blobs ==> h.1 < a.nextId
    ensures var b := a.(blobs := (a.blobs - gone)[(member, a.nextId) := data], nextId := a.nextId + 1,
                        lost := a.lost + a.blobs.Keys * gone);
            Kept(a, b, {})
  {
  }

  /** The state as it would be if others had deleted own. */
  function AsIfLost(s: Shared, own: set<Handle>): Shared {
    s.(lost := s.lost + own)
  }

  lemma KeptAsIfLost(a: Shared, b: Shared, except: set<nat>, own: set<Handle>)
    requires Kept(a, b, except)
    ensures Kept(AsIfLost(a, own), AsIfLost(b, own), except) && Kept(a, AsIfLost(b, own), except)
  {
  }

  lemma KeptFromThere(a: Shared, b: Shared, c: Shared, own: set<Handle>)
    requires Kept(a, AsIfLost(b, own), a.pending) && Kept(AsIfLost(b, own), AsIfLost(c, own), {})
    ensures Kept(a, AsIfLost(c, own), a.pending)
  {
    KeptTwice(a, AsIfLost(b, own), AsIfLost(c, own), a.pending, {}, a.pending);
  }

  lemma FilesInUse(disk: DiskLRU)
    requires disk.Valid()
    ensures forall p :: p in disk.disk.content ==> p < disk.disk.nextPath
  {
  }

  lemma BlobsGo(a: Shared, fewer: map<Handle, seq<Byte>>, own: set<Handle>)
    requires forall h :: h in fewer ==> h in a.blobs && fewer[h] == a.blobs[h]
    requires forall h :: h in a.blobs ==> h in fewer || h in own
    ensures Kept(AsIfLost(a, own), AsIfLost(a.(blobs := fewer), own), {})
  {
  }

  /** Where the chunks of a manifest are. */
  function Places(cfg: Config, chunks: seq<Chunk>): set<Handle> {
    set c | c in chunks :: cfg.HandleOf(c)
  }

  lemma ChunkPlace(s: Shared, cfg: Config, obj: string, m: Manifest, i: nat)
    requires DescribedIn(s, obj, m) && i < |m.chunks|
    ensures var c := m.chunks[i];
            && cfg.HandleOf(c) in Places(cfg, m.chunks) && cfg.HandleOf(c).1 < s.nextId
            && c.messageId.Some? && (cfg.HolderOf(c.backend), c.messageId.value) == cfg.HandleOf(c)
  {
    assert TrueAt(s.blobs, s.nextId, m.chunks[i], i, s.objects[obj][i]);
    assert m.chunks[i] in m.chunks;
  }

  /** Only ids and contents of blobs matter to a manifest's meaning. */
  lemma StaysDescribedAsIfLost(a: Shared, b: Shared, own: set<Handle>, obj: string, m: Manifest)
    requires Kept(AsIfLost(a, own), AsIfLost(b, own), {}) && DescribedIn(a, obj, m)
    ensures DescribedIn(b, obj, m) && b.objects[obj] == a.objects[obj]
  {
    hide Kept, Truthful, Concat;
    StaysDescribed(AsIfLost(a, own), AsIfLost(b, own), {}, obj, m);
  }

  /** A chunk that was there and is not any more has been deleted by others. */
  lemma LackingMeansLost(a: Shared, b: Shared, except: set<nat>, places: set<Handle>)
    requires Kept(a, b, except) && places <= a.blobs.Keys && !(places <= b.blobs.Keys)
    ensures places * b.lost != {}
  {
    var h :| h in places && h !in b.blobs;
    assert h in places * b.lost;
  }

  lemma HeldPlaces(cfg: Config, blobs: map<Handle, seq<Byte>>, chunks: seq<Chunk>, parts: seq<seq<Byte>>)
    requires Holds(cfg, blobs, chunks, parts)
    ensures Places(cfg, chunks) <= blobs.Keys
  {
    forall h | h in Places(cfg, chunks)
      ensures h in blobs
    {
      var i :| 0 <= i < |chunks| && h == cfg.HandleOf(chunks[i]);
      assert HoldsAt(cfg, blobs, chunks[i], i, parts[i]);
    }
  }

  /** What is gone does not come back. */
  lemma StaysAbsent(a: Shared, b: Shared, except: set<nat>, h: Handle)
    requires Kept(a, b, except) && h !in a.blobs && h.1 < a.nextId
    ensures h !in b.blobs
  {
  }

  lemma FilesGo(a: Shared, fewer: map<nat, seq<Byte>>, lostFiles: set<nat>)
    requires forall p :: p in fewer ==> p in a.files && fewer[p] == a.files[p]
    requires a.lostFiles <= lostFiles
    ensures Kept(a, a.(files := fewer, lostFiles := lostFiles), {})
  {
  }

  lemma FileGrows(a: Shared, b: Shared, c: Shared, mine: set<nat>, grown: nat, created: nat)
    requires b == a.(files := b.files) && (b == a || (grown in a.files && grown in a.pending && grown !in mine))
    requires b != a ==> grown in b.files && b.files == a.files[grown := b.files[grown]]
    requires created == b.nextPath
    requires c == b.(files := b.files[created := []], nextPath := b.nextPath + 1, pending := b.pending + {created})
    ensures Kept(a, c, a.pending - mine)
  {
  }

  lemma FileStays(a: Shared, b: Shared, except: set<nat>, path: nat)
    requires Kept(a, b, except) && path !in except && path < a.nextPath
    ensures path in b.files ==> path in a.files && b.files[path] == a.files[path]
    ensures (path in a.pending <==> path in b.pending) && a.nextPath <= b.nextPath
  {
  }

  /** A manifest of a committed object. */
  ghost predicate DescribedIn(s: Shared, obj: string, m: Manifest) {
    && obj in s.objects && Truthful(s.blobs, s.nextId, m.chunks, s.objects[obj])
    && m.totalSize == |Concat(s.objects[obj])|
  }

  /** A described manifest stays described, whatever all requests do. */
  lemma StaysDescribed(a: Shared, b: Shared, except: set<nat>, obj: string, m: Manifest)
    requires Kept(a, b, except) && DescribedIn(a, obj, m)
    ensures DescribedIn(b, obj, m) && b.objects[obj] == a.objects[obj]
  {
    hide TrueAt, Concat;
    forall i | 0 <= i < |m.chunks|
      ensures TrueAt(b.blobs, b.nextId, m.chunks[i], i, b.objects[obj][i])
    {
      ChunkStaysTrue(a, b, except, m.chunks[i], i, a.objects[obj][i]);
    }
  }

  lemma ChunkStaysTrue(a: Shared, b: Shared, except: set<nat>, c: Chunk, i: nat, part: seq<Byte>)
    requires Kept(a, b, except) && TrueAt(a.blobs, a.nextId, c, i, part)
    ensures TrueAt(b.blobs, b.nextId, c, i, part)
  {
  }

  lemma DescribedFits(s: Shared, obj: string, m: Manifest)
    requires DescribedIn(s, obj, m)
    ensures Fits(s.objects[obj], m.chunks)
  {
    assert forall i :: 0 <= i < |m.chunks| ==> TrueAt(s.blobs, s.nextId, m.chunks[i], i, s.objects[obj][i]);
  }

  /** What every way of sending promises: the client gets content and nothing else, all of it unless it
    * hangs up, or three fetches fail, or a chunk is not where the manifest says, or the cached file is gone. */
  ghost predicate Delivered(received: seq<Byte>, gone: bool, end: End, content: seq<Byte>, failed: int, lacking: bool) {
    && received <= content
    && match end
       case AllSent => received == content && !gone
       case ClientGone => gone
       case BackendFailed => failed >= 3 || lacking
       case FileVanished => received == []
  }

  /** The answer to a request for an object with this content, and what the client received.  Without a range
    * it is the whole content, a header that is no range is refused, and a range is answered with exactly the
    * positions it selects, or refused if it selects none (but a suffix of an empty object is not).  failed
    * counts the request's fetches that failed, and lacking says that a chunk's blob is gone. */
  ghost predicate Answers(r: Response, received: seq<Byte>, gone: bool, failed: int, lacking: bool, h: RangeHeader,
                          content: seq<Byte>)
  {
    match h
    case Absent =>
      r.Body? && r == Body(0, |content|, r.end) && Delivered(received, gone, r.end, content, failed, lacking)
    case Malformed => r.RangeNotSatisfiable? && received == []
    case Given(first, last) =>
      if SelectsNothing(h, |content|) && !(content == [] && first == None && last.Some? && last.value > 0) then
        r.RangeNotSatisfiable? && received == []
      else
        && r.Body? && r.start + r.length <= |content|
        && (forall i: nat :: r.start <= i < r.start + r.length <==> Selects(h, |content|, i))
        && Delivered(received, gone, r.end, content[r.start..r.start + r.length], failed, lacking)
  }

  class Server {
    const channel: Channel
    const cfg: Config
    const disk: DiskLRU
    const micro: ChunkMicroCache
    ghost var objects: map<string, seq<seq<Byte>>>
    ghost var reserved: set<string>
    ghost var lostFiles: set<nat>   // files that others have removed

    ghost function View(): Shared
      reads this, channel, disk, disk.disk
    {
      Shared(objects, reserved, channel.blobs, channel.nextId, channel.lost, disk.disk.content, disk.disk.nextPath,
             disk.pending, lostFiles)
    }

    /** Whatever the caches hold is what the backend was given. */
    ghost predicate Coherent()
      reads this, micro, disk, disk.disk
    {
      && (forall e :: e in micro.entries ==>
           e.key.0 in objects && e.key.1 < |objects[e.key.0]| && e.value.0 == objects[e.key.0][e.key.1])
      && (forall e :: e in disk.entries ==>
           e.key in objects && (e.value in disk.disk.content ==> disk.disk.content[e.value] == Concat(objects[e.key])))
    }

    ghost predicate Valid()
      reads this, channel, micro, disk, disk.disk
    {
      && channel.Valid() && micro.Valid() && disk.Valid() && Coherent() && reserved !! objects.Keys
      && forall p :: p in lostFiles ==> p < disk.disk.nextPath && p !in disk.disk.content
    }

    ghost predicate Describes(obj: string, m: Manifest)
      reads this, channel, disk, disk.disk
    {
      DescribedIn(View(), obj, m)
    }

    /** Some chunk is not where the manifest says. */
    ghost predicate Lacking(m: Manifest)
      reads channel`blobs
    {
      !(Places(cfg, m.chunks) <= channel.blobs.Keys)
    }

    /** The file a lookup of the object finds. */
    ghost function CachedFile(obj: string): Option<nat>
      reads disk, disk.disk
    {
      var i := Find(disk.entries, obj);
      if i < |disk.entries| && disk.entries[i].value in disk.disk.content then Some(disk.entries[i].value) else None
    }

    constructor (channel: Channel, cfg: Config, cacheBytes: nat, seekBytes: nat, ghost reserved: set<string>)
      requires channel.Valid()
      ensures Valid() && fresh(disk) && fresh(disk.disk) && fresh(micro)
      ensures this.channel == channel && this.cfg == cfg && objects == map[] && this.reserved == reserved
      ensures lostFiles == {} && micro.ttl == 120 && micro.maxBytes == seekBytes && disk.maxBytes == cacheBytes
    {
      this.channel, this.cfg := channel, cfg;
      disk := new DiskLRU(cacheBytes);
      micro := new ChunkMicroCache(seekBytes, 120);
      objects, this.reserved, lostFiles := map[], reserved, {};
    }

    /** An upload commits an object under the id it was to get. */
    ghost method Publish(obj: string, m: Manifest, parts: seq<seq<Byte>>)
      requires Valid() && obj in reserved && Truthful(channel.blobs, channel.nextId, m.chunks, parts)
      requires m.totalSize == |Concat(parts)|
      modifies this
      ensures Valid() && objects == old(objects)[obj := parts] && Describes(obj, m) && CachedFile(obj) == None
      ensures reserved == old(reserved) - {obj} && Kept(old(View()).(reserved := reserved), View(), {})
    {
      hide Concat, ChunkMicroCache.Valid, DiskLRU.Valid, Channel.Valid, Truthful, NothingRewritten;
      NothingYet(channel.blobs, channel.nextId);
      assert forall e :: e in disk.entries ==> e.key != obj;
      assert forall i :: 0 <= i < |disk.entries| ==> disk.entries[i] in disk.entries;
      NoKey(disk.entries, obj);
      objects, reserved := objects[obj := parts], reserved - {obj};
    }

    /** A deleted object leaves the caches. */
    method Drop(obj: string)
      requires Valid()
      modifies micro, disk, disk.disk
      ensures Valid() && Kept(old(View()), View(), {}) && CachedFile(obj) == None
    {
      hide Without, Consistent, Concat, Channel.Valid, NothingRewritten;
      NothingYet(channel.blobs, channel.nextId);
      WithoutMembers(disk.entries, obj);
      disk.Remove(obj);
      micro.RemoveObject(obj);
    }

    /** Files disappear from the cache directory. */
    method Prune(gone: set<nat>)
      requires Valid()
      modifies this`lostFiles, disk.disk`content
      ensures Valid() && Kept(old(View()), View(), {})
      ensures forall p :: p in old(disk.disk.content) ==> p in disk.disk.content || p in lostFiles
    {
      hide Consistent, Concat, Channel.Valid, ChunkMicroCache.Valid, Kept, Paths;
      ghost var before := View();
      FilesInUse(disk);
      disk.PruneExternally(gone);
      lostFiles := lostFiles + (before.files.Keys - disk.disk.content.Keys);
      FilesGo(before, View().files, lostFiles);
    }

    /** A request for this object is under way: its manifest describes these parts. */
    ghost predicate Serving(obj: string, m: Manifest, parts: seq<seq<Byte>>)
      reads this, channel, micro, disk, disk.disk
    {
      Valid() && Describes(obj, m) && objects[obj] == parts
    }

    /** What other requests may do meanwhile, as far as this one can tell: add objects and blobs, delete
      * blobs, fill, evict and prune caches; but no blob and no committed file is rewritten, and no one
      * else writes or commits this request's temporary file. */
    method OthersRun(mine: set<nat>, obj: string, ghost m: Manifest, ghost parts: seq<seq<Byte>>)
      requires Serving(obj, m, parts)
      modifies this, channel, micro, disk, disk.disk
      ensures Serving(obj, m, parts) && Kept(old(View()), View(), old(disk.pending) - mine)
      ensures forall p :: p in old(disk.disk.content) ==> p in disk.disk.content || p in lostFiles
    {
      hide Kept, Serving, Channel.Valid;
      ghost var a := View();
      OthersUpload(obj, m, parts);
      ghost var b := View();
      KeptForOthers(a, b, {}, mine);
      OthersPurge(obj, m, parts);
      ghost var c := View();
      KeptForOthers(b, c, {}, mine);
      KeptOn(a, b, c, mine);
      OthersFill(mine, obj, m, parts);
      KeptOn(a, c, View(), mine);
    }

    /** An object and a blob are added, some blobs deleted. */
    method OthersUpload(obj: string, ghost m: Manifest, ghost parts: seq<seq<Byte>>)
      requires Serving(obj, m, parts)
      modifies this`objects, channel
      ensures Serving(obj, m, parts) && Kept(old(View()), View(), {})
    {
      hide Concat, DescribedIn, Kept, Coherent, ChunkMicroCache.Valid, DiskLRU.Valid, Channel.Valid;
      ghost var before := View();
      OthersPost();
      ghost var middle := View();
      StaysDescribed(before, middle, {}, obj, m);
      OthersPublish();
      StaysDescribed(middle, View(), {}, obj, m);
      KeptTwice(before, middle, View(), {}, {}, {});
    }

    method OthersPost()
      requires Valid()
      modifies channel
      ensures Valid() && Kept(old(View()), View(), {})
    {
      hide Kept, Coherent, ChunkMicroCache.Valid, DiskLRU.Valid;
      ghost var before := View();
      var gone: set<Handle>, member: nat, data: seq<Byte> := *, *, *;
      OthersGrow(before, gone, member, data);
      ghost var lost := channel.blobs.Keys * gone;
      channel.Disturb(gone, member, data);
      channel.lost := channel.lost + lost;
    }

    ghost method OthersPublish()
      requires Valid()
      modifies this`objects
      ensures Valid() && Kept(old(View()), View(), {})
    {
      hide Concat, Channel.Valid, ChunkMicroCache.Valid, DiskLRU.Valid, NothingRewritten;
      NothingYet(channel.blobs, channel.nextId);
      var other: string, its: seq<seq<Byte>> := *, *;
      if other !in objects && other !in reserved {
        objects := objects[other := its];
      }
    }

    /** An object leaves the caches; some files are lost. */
    method OthersPurge(obj: string, ghost m: Manifest, ghost parts: seq<seq<Byte>>)
      requires Serving(obj, m, parts)
      modifies this`lostFiles, micro, disk, disk.disk
      ensures Serving(obj, m, parts) && Kept(old(View()), View(), {})
      ensures forall p :: p in old(disk.disk.content) ==> p in disk.disk.content || p in lostFiles
    {
      hide Consistent, Concat, DescribedIn, Channel.Valid, ChunkMicroCache.Valid, Kept, Paths;
      ghost var before := View();
      FilesInUse(disk);
      var purged: string := *;
      var gone: set<nat> := *;
      Drop(purged);
      ghost var middle := View();
      lostFiles := lostFiles + (before.files.Keys - disk.disk.content.Keys);
      FilesGo(middle, middle.files, lostFiles);
      KeptTwice(before, middle, View(), {}, {}, {});
      middle := View();
      Prune(gone);
      KeptTwice(before, middle, View(), {}, {}, {});
      StaysDescribed(before, View(), {}, obj, m);
    }

    /** A temporary file is created, another one of theirs grows. */
    method OthersFill(mine: set<nat>, obj: string, ghost m: Manifest, ghost parts: seq<seq<Byte>>)
      requires Serving(obj, m, parts)
      modifies disk`pending, disk.disk
      ensures Serving(obj, m, parts) && Kept(old(View()), View(), old(disk.pending) - mine)
      ensures forall p :: p in old(disk.disk.content) ==> p in disk.disk.content
    {
      hide Consistent, Concat, DescribedIn, Channel.Valid, ChunkMicroCache.Valid, Kept;
      ghost var before := View();
      assert forall e :: e in disk.entries ==> e.value in Paths(disk.entries);
      var grown: nat, data: seq<Byte> := *, *;
      if grown in disk.disk.content && grown !in mine && grown !in Paths(disk.entries) {
        disk.Write(grown, data);
      }
      ghost var middle := View();
      var created := disk.NewEntryPath();
      FileGrows(before, middle, View(), mine, grown, created);
      StaysDescribed(before, View(), before.pending - mine, obj, m);
    }

    /** purge_object_blobs: every chunk's blob is asked to go, at the member that holds it; others run
      * before each call.  No other blob goes, and if no deletion fails none of these is left. */
    method DeleteBlobs(caller: Caller, obj: string, m: Manifest, ghost parts: seq<seq<Byte>>)
      requires Serving(obj, m, parts)
      modifies this, channel, micro, disk, disk.disk, caller`keptByError
      ensures Serving(obj, m, parts) && caller.keptByError >= old(caller.keptByError)
      ensures Kept(old(View()), AsIfLost(View(), Places(cfg, m.chunks)), old(disk.pending))
      ensures caller.keptByError == old(caller.keptByError) ==> Places(cfg, m.chunks) !! channel.blobs.Keys
    {
      hide Kept, Serving;
      ghost var start, places := View(), Places(cfg, m.chunks);
      KeptSelf(start, start.pending);
      KeptAsIfLost(start, start, start.pending, places);
      for i := 0 to |m.chunks|
        invariant Serving(obj, m, parts) && Kept(start, AsIfLost(View(), places), start.pending)
        invariant caller.keptByError >= old(caller.keptByError)
        invariant caller.keptByError == old(caller.keptByError) ==>
          forall j :: 0 <= j < i ==> cfg.HandleOf(m.chunks[j]) !in channel.blobs
      {
        ghost var s := View();
        Under(obj, m, parts);
        OthersRun({}, obj, m, parts);
        KeptAsIfLost(s, View(), s.pending - {}, places);
        KeptSince(start, AsIfLost(s, places), AsIfLost(View(), places), {});
        if caller.keptByError == old(caller.keptByError) {
          StillAbsent(s, View(), obj, m, i);
        }
        DeleteAt(caller, i, obj, m, parts, start);
      }
    }

    /** One of those calls. */
    method DeleteAt(caller: Caller, i: nat, obj: string, m: Manifest, ghost parts: seq<seq<Byte>>, ghost start: Shared)
      requires Serving(obj, m, parts) && i < |m.chunks|
      requires Kept(start, AsIfLost(View(), Places(cfg, m.chunks)), start.pending)
      modifies channel`blobs, caller`keptByError
      ensures Serving(obj, m, parts) && Kept(start, AsIfLost(View(), Places(cfg, m.chunks)), start.pending)
      ensures caller.keptByError >= old(caller.keptByError)
      ensures caller.keptByError == old(caller.keptByError) ==> cfg.HandleOf(m.chunks[i]) !in channel.blobs
      ensures forall h :: h in channel.blobs ==> h in old(channel.blobs)
    {
      hide Kept, DescribedIn, Concat, Server.Coherent, DiskLRU.Valid, ChunkMicroCache.Valid, Channel.Valid, AsIfLost;
      ghost var t, places := View(), Places(cfg, m.chunks);
      var c := m.chunks[i];
      ChunkPlace(t, cfg, obj, m, i);
      channel.Delete(caller, cfg.HolderOf(c.backend), c.messageId);
      BlobsGo(t, View().blobs, places);
      StaysDescribedAsIfLost(t, View(), places, obj, m);
      KeptFromThere(start, t, View(), places);
    }

    lemma StillAbsent(s: Shared, t: Shared, obj: string, m: Manifest, i: nat)
      requires DescribedIn(s, obj, m) && Kept(s, t, s.pending - {}) && i <= |m.chunks|
      requires forall j :: 0 <= j < i ==> cfg.HandleOf(m.chunks[j]) !in s.blobs
      ensures forall j :: 0 <= j < i ==> cfg.HandleOf(m.chunks[j]) !in t.blobs
    {
      hide Kept, DescribedIn;
      forall j | 0 <= j < i
        ensures cfg.HandleOf(m.chunks[j]) !in t.blobs
      {
        ChunkPlace(s, cfg, obj, m, j);
        StaysAbsent(s, t, s.pending - {}, cfg.HandleOf(m.chunks[j]));
      }
    }

    /** One call to the member that holds a chunk; others run before and after it is answered. */
    method OpenOnce(caller: Caller, mine: set<nat>, obj: string, idx: nat, m: Manifest, ghost parts: seq<seq<Byte>>)
      returns (r: Option<seq<Byte>>)
      requires Serving(obj, m, parts) && idx < |parts|
      modifies this, channel, micro, disk, disk.disk, caller`failedOpens
      ensures Serving(obj, m, parts) && Kept(old(View()), View(), old(disk.pending) - mine)
      ensures r.Some? ==> r.value == parts[idx] && caller.failedOpens == old(caller.failedOpens)
      ensures r == None ==>
        caller.failedOpens == old(caller.failedOpens) + 1
        || (caller.failedOpens == old(caller.failedOpens) && cfg.HandleOf(m.chunks[idx]) !in channel.blobs)
    {
      hide Kept, Valid, Concat;
      ghost var a := View();
      OthersRun(mine, obj, m, parts);
      ghost var b := View();
      var c := m.chunks[idx];
      assert TrueAt(b.blobs, b.nextId, c, idx, parts[idx]);
      r := channel.Open(caller, cfg.HolderOf(c.backend), c.fileId);
      OthersRun(mine, obj, m, parts);
      KeptOn(a, b, View(), mine);
      if cfg.HandleOf(c) !in b.blobs {
        StaysAbsent(b, View(), b.pending - mine, cfg.HandleOf(c));
      }
    }

    /** The hybrid shortcut: a bot that has seen the chunk's message is asked first. */
    method AskBot(mine: set<nat>, obj: string, idx: nat, m: Manifest, ghost parts: seq<seq<Byte>>)
      returns (r: Option<seq<Byte>>)
      requires Serving(obj, m, parts) && idx < |parts|
      modifies this, channel, micro, disk, disk.disk
      ensures Serving(obj, m, parts) && Kept(old(View()), View(), old(disk.pending) - mine)
      ensures r.Some? ==> r.value == parts[idx]
    {
      hide Kept, Valid, Concat;
      ghost var a := View();
      OthersRun(mine, obj, m, parts);
      ghost var b := View();
      var c := m.chunks[idx];
      assert TrueAt(b.blobs, b.nextId, c, idx, parts[idx]);
      r := None;
      if c.botFileId.Some? {
        r := channel.OpenByBot(c.botFileId.value);
      }
      OthersRun(mine, obj, m, parts);
      KeptOn(a, b, View(), mine);
    }

    lemma Under(obj: string, m: Manifest, parts: seq<seq<Byte>>)
      requires Serving(obj, m, parts)
      ensures DescribedIn(View(), obj, m)
    {
    }

    lemma IdInUse(obj: string, idx: nat, m: Manifest, parts: seq<seq<Byte>>)
      requires Serving(obj, m, parts) && idx < |parts|
      ensures idx < |m.chunks| && cfg.HandleOf(m.chunks[idx]).1 < channel.nextId
      ensures cfg.HandleOf(m.chunks[idx]) in Places(cfg, m.chunks)
    {
      ChunkPlace(View(), cfg, obj, m, idx);
    }

    /** _fetch_chunk_bytes_uncached: from a bot in hybrid mode, or else from the member that holds the
      * chunk, in up to three tries. */
    method FetchUncached(caller: Caller, mine: set<nat>, obj: string, idx: nat, m: Manifest,
        ghost parts: seq<seq<Byte>>)
      returns (r: Option<seq<Byte>>)
      requires Serving(obj, m, parts) && idx < |parts|
      modifies this, channel, micro, disk, disk.disk, caller`failedOpens
      ensures Serving(obj, m, parts) && Kept(old(View()), View(), old(disk.pending) - mine)
      ensures r.Some? ==> r.value == parts[idx] && caller.failedOpens < old(caller.failedOpens) + 3
      ensures r == None ==>
        caller.failedOpens == old(caller.failedOpens) + 3 || cfg.HandleOf(m.chunks[idx]) !in channel.blobs
      ensures caller.failedOpens >= old(caller.failedOpens)
    {
      hide Kept, Serving;
      ghost var start := View();
      r := None;
      KeptSelf(start, start.pending - mine);
      IdInUse(obj, idx, m, parts);
      var hybridOn: bool := *;
      if hybridOn {
        r := AskBot(mine, obj, idx, m, parts);
        if r.Some? {
          return;
        }
      }
      for attempt := 0 to 3
        invariant Serving(obj, m, parts) && Kept(start, View(), start.pending - mine)
        invariant r == None && old(caller.failedOpens) <= caller.failedOpens <= old(caller.failedOpens) + attempt
        invariant idx < |m.chunks|
        invariant caller.failedOpens == old(caller.failedOpens) + attempt ||
                  cfg.HandleOf(m.chunks[idx]) !in channel.blobs
      {
        ghost var before := View();
        IdInUse(obj, idx, m, parts);
        r := OpenOnce(caller, mine, obj, idx, m, parts);
        KeptOn(start, before, View(), mine);
        if cfg.HandleOf(m.chunks[idx]) !in before.blobs {
          StaysAbsent(before, View(), before.pending - mine, cfg.HandleOf(m.chunks[idx]));
        }
        if r.Some? {
          return;
        }
      }
    }

    /** _fetch_chunk_bytes: from memory, or from the backend. */
    method FetchChunk(caller: Caller, mine: set<nat>, obj: string, idx: nat, m: Manifest, ghost parts: seq<seq<Byte>>)
      returns (r: Option<seq<Byte>>)
      requires Serving(obj, m, parts) && idx < |parts|
      modifies this, channel, micro, disk, disk.disk, caller`failedOpens
      ensures Serving(obj, m, parts) && Kept(old(View()), View(), old(disk.pending) - mine)
      ensures r.Some? ==> r.value == parts[idx] && caller.failedOpens < old(caller.failedOpens) + 3
      ensures r == None ==>
        caller.failedOpens >= old(caller.failedOpens) + 3 || cfg.HandleOf(m.chunks[idx]) !in channel.blobs
      ensures caller.failedOpens >= old(caller.failedOpens)
      ensures r.Some? && 0 < micro.maxBytes && |r.value| <= micro.maxBytes ==> InMemory(obj, idx, parts[idx])
    {
      hide Kept, Serving, InMemory;
      r := Recall(obj, idx, m, parts);
      if r.Some? {
        KeptSelf(View(), disk.pending - mine);
        return;
      }
      ghost var recalled := View();
      r := FetchUncached(caller, mine, obj, idx, m, parts);
      if r.Some? {
        Remember(obj, idx, r.value, m, parts);
      }
    }

    /** The chunk is the last used one in memory. */
    ghost predicate InMemory(obj: string, idx: nat, data: seq<Byte>)
      reads this, micro
    {
      && micro.entries != []
      && var e := micro.entries[|micro.entries| - 1]; e.key == (obj, idx) && e.value.0 == data
    }

    /** The chunk cache's get and put keep it coherent. */
    method Recall(obj: string, idx: nat, ghost m: Manifest, ghost parts: seq<seq<Byte>>) returns (r: Option<seq<Byte>>)
      requires Serving(obj, m, parts) && idx < |parts|
      modifies micro
      ensures Serving(obj, m, parts) && (r.Some? ==> r.value == parts[idx] && InMemory(obj, idx, parts[idx]))
    {
      hide DiskLRU.Valid, Without, Consistent, Truthful, Concat, Find, Channel.Valid;
      var now: int := *;
      WithoutMembers(micro.entries, (obj, idx));
      r := micro.Get((obj, idx), now);
    }

    method Remember(obj: string, idx: nat, data: seq<Byte>, ghost m: Manifest, ghost parts: seq<seq<Byte>>)
      requires Serving(obj, m, parts) && idx < |parts| && data == parts[idx]
      modifies micro
      ensures Serving(obj, m, parts)
      ensures 0 < micro.maxBytes && |data| <= micro.maxBytes ==> InMemory(obj, idx, data)
    {
      hide DiskLRU.Valid, Without, Evict, Consistent, Truthful, Concat, Find, Channel.Valid;
      var now: int := *;
      WithoutMembers(micro.entries, (obj, idx));
      EvictMembers(Without(micro.entries, (obj, idx)), |data|, micro.maxBytes);
      micro.Put((obj, idx), data, now);
    }

    /** One chunk's slice goes to the socket 128 KB at a time, until the client hangs up. */
    method SendSlices(client: Client, part: seq<Byte>, obj: string, ghost m: Manifest, ghost parts: seq<seq<Byte>>,
                      ghost start: Shared)
      requires Serving(obj, m, parts) && !client.gone && Kept(start, View(), start.pending)
      modifies this, channel, micro, disk, disk.disk, client
      ensures Serving(obj, m, parts) && Kept(start, View(), start.pending) && (old(Lacking(m)) ==> Lacking(m))
      ensures old(client.received) <= client.received <= old(client.received) + part
      ensures !client.gone ==> client.received == old(client.received) + part
    {
      hide Kept, Serving;
      ghost var first := View();
      var i := 0;
      while i < |part|
        invariant i <= |part| && !client.gone && client.received == old(client.received) + part[..i]
        invariant Serving(obj, m, parts) && Kept(start, View(), start.pending) && (old(Lacking(m)) ==> Lacking(m))
      {
        var k := Min(i + SLICE, |part|);
        assert part[..i] + part[i..k] == part[..k];
        client.Send(part[i..k]);
        if client.gone {
          return;
        }
        ghost var before := View();
        Under(obj, m, parts);
        OthersRun({}, obj, m, parts);
        KeptSince(start, before, View(), {});
        assert before.pending - {} == before.pending;
        StaysLacking(before, View(), obj, m, parts);
        i := k;
      }
    }

    lemma StaysLacking(s: Shared, t: Shared, obj: string, m: Manifest, parts: seq<seq<Byte>>)
      requires Kept(s, t, s.pending) && DescribedIn(s, obj, m)
      ensures !(Places(cfg, m.chunks) <= s.blobs.Keys) ==> !(Places(cfg, m.chunks) <= t.blobs.Keys)
    {
      hide Kept, DescribedIn;
      if h :| h in Places(cfg, m.chunks) && h !in s.blobs {
        var i :| 0 <= i < |m.chunks| && h == cfg.HandleOf(m.chunks[i]);
        ChunkPlace(s, cfg, obj, m, i);
        StaysAbsent(s, t, s.pending, h);
      }
    }

    /** stream: a single chunk is sent after it is fetched; otherwise the next chunk is fetched while the
      * current one is sent. */
    method Stream(caller: Caller, obj: string, m: Manifest, segs: seq<Segment>, client: Client,
        ghost parts: seq<seq<Byte>>)
      returns (end: End)
      requires Serving(obj, m, parts) && Within(parts, segs) && client.received == [] && !client.gone
      modifies this, channel, micro, disk, disk.disk, client, caller`failedOpens
      ensures Serving(obj, m, parts) && Kept(old(View()), View(), old(disk.pending))
      ensures Delivered(client.received, client.gone, end, Gather(parts, segs),
                        caller.failedOpens - old(caller.failedOpens), Lacking(m))
      ensures end != FileVanished
    {
      hide Kept, Serving, Gather, Lacking;
      ghost var start := View();
      KeptSelf(start, start.pending);
      GatherNothing(parts);
      var next: Option<seq<Byte>> := None;
      for k := 0 to |segs|
        invariant Serving(obj, m, parts) && Kept(start, View(), start.pending)
        invariant client.received == Gather(parts, segs[..k]) <= Gather(parts, segs) && !client.gone
        invariant next.Some? ==> k < |segs| && next.value == parts[segs[k].chunk]
        invariant caller.failedOpens >= old(caller.failedOpens)
      {
        var chunk := next;
        next := None;
        if chunk == None {
          chunk := FetchSegment(caller, obj, segs, k, m, parts, start);
          if chunk == None {
            return BackendFailed;
          }
        }
        if k + 1 < |segs| {
          next := FetchSegment(caller, obj, segs, k + 1, m, parts, start);
        }
        GatherStep(parts, segs, k);
        SendSlices(client, chunk.value[segs[k].offset..segs[k].offset + segs[k].length], obj, m, parts, start);
        if client.gone {
          return ClientGone;
        }
        if k + 1 < |segs| && next == None {
          return BackendFailed;
        }
      }
      assert segs[..|segs|] == segs;
      end := AllSent;
    }

    /** The chunk of one segment. */
    method FetchSegment(caller: Caller, obj: string, segs: seq<Segment>, k: nat, m: Manifest,
                        ghost parts: seq<seq<Byte>>, ghost start: Shared)
      returns (r: Option<seq<Byte>>)
      requires Serving(obj, m, parts) && Within(parts, segs) && k < |segs| && Kept(start, View(), start.pending)
      modifies this, channel, micro, disk, disk.disk, caller`failedOpens
      ensures Serving(obj, m, parts) && Kept(start, View(), start.pending)
      ensures r.Some? ==> r.value == parts[segs[k].chunk]
      ensures r == None ==> caller.failedOpens >= old(caller.failedOpens) + 3 || Lacking(m)
      ensures caller.failedOpens >= old(caller.failedOpens)
    {
      hide Kept, Serving;
      ghost var s := View();
      IdInUse(obj, segs[k].chunk, m, parts);
      r := FetchChunk(caller, {}, obj, segs[k].chunk, m, parts);
      KeptSince(start, s, View(), {});
    }

    /** filling_stream: a whole object is sent and copied into a temporary file, which is committed only
      * when all of it was sent, and given up otherwise. */
    method FillingStream(caller: Caller, obj: string, m: Manifest, segs: seq<Segment>, client: Client,
                         ghost parts: seq<seq<Byte>>)
      returns (end: End, ghost temporary: nat)
      requires Serving(obj, m, parts) && Within(parts, segs) && client.received == [] && !client.gone
      requires Gather(parts, segs) == Concat(parts) && m.totalSize == |Concat(parts)|
      modifies this, channel, micro, disk, disk.disk, client, caller`failedOpens
      ensures Serving(obj, m, parts) && Kept(old(View()), View(), old(disk.pending))
      ensures Delivered(client.received, client.gone, end, Concat(parts),
                        caller.failedOpens - old(caller.failedOpens), Lacking(m))
      ensures end != FileVanished
      ensures temporary !in disk.pending
      ensures end == AllSent && m.totalSize <= disk.maxBytes ==> HasKey(disk.entries, obj)
      ensures end != AllSent ==> temporary !in disk.disk.content
    {
      hide Kept, Serving, Gather, Concat, Piece;
      ghost var start := View();
      KeptSelf(start, start.pending);
      var tmp := NewTemporary(obj, m, parts);
      temporary := tmp;
      KeptSince(start, start, View(), {tmp});
      var size := 0;
      GatherNothing(parts);
      for k := 0 to |segs|
        invariant Serving(obj, m, parts) && Kept(start, View(), start.pending)
        invariant tmp in disk.pending && start.nextPath <= tmp < disk.disk.nextPath
        invariant client.received == Gather(parts, segs[..k]) <= Gather(parts, segs) && !client.gone
        invariant tmp in disk.disk.content ==> disk.disk.content[tmp] == client.received
        invariant size == |client.received| && caller.failedOpens >= old(caller.failedOpens)
      {
        var fetched := CopyPiece(caller, tmp, obj, segs, k, m, parts, start);
        ghost var s := View();
        if fetched == None {
          GiveUp(tmp, obj, m, parts);
          KeptSince(start, s, View(), {tmp});
          return BackendFailed, temporary;
        }
        var part := fetched.value;
        GatherStep(parts, segs, k);
        size := size + |part|;
        client.Send(part);
        if client.gone {
          GiveUp(tmp, obj, m, parts);
          KeptSince(start, s, View(), {tmp});
          return ClientGone, temporary;
        }
        OthersRun({tmp}, obj, m, parts);
        KeptSince(start, s, View(), {tmp});
        FileStays(s, View(), s.pending - {tmp}, tmp);
      }
      assert segs[..|segs|] == segs;
      if size == m.totalSize {
        ghost var s := View();
        CommitTemporary(tmp, size, obj, m, parts);
        KeptSince(start, s, View(), {tmp});
      }
      end := AllSent;
    }

    /** A chunk, cut down to a segment, is fetched and written to the temporary file. */
    method CopyPiece(caller: Caller, tmp: nat, obj: string, segs: seq<Segment>, k: nat, m: Manifest,
                     ghost parts: seq<seq<Byte>>, ghost start: Shared)
      returns (r: Option<seq<Byte>>)
      requires Serving(obj, m, parts) && Within(parts, segs) && k < |segs| && Kept(start, View(), start.pending)
      requires tmp in disk.pending && start.nextPath <= tmp < disk.disk.nextPath
      modifies this, channel, micro, disk, disk.disk, caller`failedOpens
      ensures Serving(obj, m, parts) && Kept(start, View(), start.pending)
      ensures tmp in disk.pending && tmp < disk.disk.nextPath
      ensures r.Some? ==> r.value == Piece(parts, segs, k)
      ensures r.Some? && tmp in disk.disk.content ==>
        tmp in old(disk.disk.content) && disk.disk.content[tmp] == old(disk.disk.content[tmp]) + r.value
      ensures r == None ==> caller.failedOpens >= old(caller.failedOpens) + 3 || Lacking(m)
      ensures caller.failedOpens >= old(caller.failedOpens)
    {
      hide Serving, Kept;
      ghost var s := View();
      var seg := segs[k];
      IdInUse(obj, seg.chunk, m, parts);
      r := FetchChunk(caller, {tmp}, obj, seg.chunk, m, parts);
      ghost var t := View();
      KeptSince(start, s, t, {tmp});
      FileStays(s, t, s.pending - {tmp}, tmp);
      if r.Some? {
        var part := r.value[seg.offset..seg.offset + seg.length];
        WriteTemporary(tmp, part, obj, m, parts);
        KeptSince(start, t, View(), {tmp});
        r := Some(part);
      }
    }

    /** The cache operations of filling_stream keep the caches coherent, and touch no other request's
      * file. */
    method NewTemporary(obj: string, ghost m: Manifest, ghost parts: seq<seq<Byte>>) returns (tmp: nat)
      requires Serving(obj, m, parts)
      modifies disk`pending, disk.disk
      ensures Serving(obj, m, parts) && Kept(old(View()), View(), {tmp})
      ensures tmp in disk.pending && old(disk.disk.nextPath) <= tmp < disk.disk.nextPath
      ensures tmp in disk.disk.content && disk.disk.content[tmp] == []
    {
      hide Concat, Truthful, Channel.Valid, ChunkMicroCache.Valid, Consistent, NothingRewritten;
      ghost var before := View();
      NothingYet(channel.blobs, channel.nextId);
      assert forall e :: e in disk.entries ==> e.value in Paths(disk.entries);
      tmp := disk.NewEntryPath();
      StaysDescribed(before, View(), {tmp}, obj, m);
    }

    method WriteTemporary(tmp: nat, part: seq<Byte>, obj: string, ghost m: Manifest, ghost parts: seq<seq<Byte>>)
      requires Serving(obj, m, parts) && tmp in disk.pending
      modifies disk.disk`content
      ensures Serving(obj, m, parts) && Kept(old(View()), View(), {tmp})
      ensures tmp in disk.disk.content ==>
        tmp in old(disk.disk.content) && disk.disk.content[tmp] == old(disk.disk.content[tmp]) + part
    {
      hide Concat, Truthful, Channel.Valid, ChunkMicroCache.Valid, Consistent, NothingRewritten;
      ghost var before := View();
      NothingYet(channel.blobs, channel.nextId);
      disk.Write(tmp, part);
      assert forall e :: e in disk.entries ==> e.value in Paths(disk.entries);
      StaysDescribed(before, View(), {tmp}, obj, m);
    }

    method GiveUp(tmp: nat, obj: string, ghost m: Manifest, ghost parts: seq<seq<Byte>>)
      requires Serving(obj, m, parts) && tmp in disk.pending
      modifies disk`pending, disk.disk`content
      ensures Serving(obj, m, parts) && Kept(old(View()), View(), {tmp})
      ensures disk.pending == old(disk.pending) - {tmp} && tmp !in disk.disk.content
    {
      hide Concat, Truthful, Channel.Valid, ChunkMicroCache.Valid, Consistent, NothingRewritten;
      ghost var before := View();
      NothingYet(channel.blobs, channel.nextId);
      disk.Discard(tmp);
      StaysDescribed(before, View(), {tmp}, obj, m);
    }

    method CommitTemporary(tmp: nat, size: nat, obj: string, ghost m: Manifest, ghost parts: seq<seq<Byte>>)
      requires Serving(obj, m, parts) && tmp in disk.pending
      requires tmp in disk.disk.content ==> disk.disk.content[tmp] == Concat(parts)
      modifies disk, disk.disk`content
      ensures Serving(obj, m, parts) && Kept(old(View()), View(), {tmp})
      ensures disk.pending == old(disk.pending) - {tmp}
      ensures size <= disk.maxBytes ==> HasKey(disk.entries, obj)
    {
      hide Evict, Without, Consistent, Concat, Truthful, Channel.Valid, ChunkMicroCache.Valid, NothingRewritten;
      ghost var before := View();
      NothingYet(channel.blobs, channel.nextId);
      EvictMembers(disk.entries, size, disk.maxBytes);
      WithoutMembers(Evict(disk.entries, size, disk.maxBytes), obj);
      var committed := disk.Add(obj, tmp, size);
      if committed {
        EndsWithKey(disk.entries, obj);
      }
      StaysDescribed(before, View(), {tmp}, obj, m);
    }

    /** cached_stream: the file is read from the start of the range, at most 1 MB at a time, to its end;
      * once it is open, its name may go. */
    method CachedStream(path: nat, start: nat, length: nat, client: Client, obj: string, ghost m: Manifest,
                        ghost parts: seq<seq<Byte>>)
      returns (end: End)
      requires Serving(obj, m, parts) && start + length <= |Concat(parts)| && client.received == [] && !client.gone
      requires path in disk.disk.content && path !in disk.pending && disk.disk.content[path] == Concat(parts)
      requires path < disk.disk.nextPath
      modifies this, channel, micro, disk, disk.disk, client
      ensures Serving(obj, m, parts) && Kept(old(View()), View(), old(disk.pending))
      ensures Delivered(client.received, client.gone, end, Concat(parts)[start..start + length], 0, false)
      ensures end == FileVanished ==> path in lostFiles
    {
      hide Kept, Serving, Concat;
      ghost var a := View();
      assert a.pending - {} == a.pending;
      OthersRun({}, obj, m, parts);
      FileStays(a, View(), a.pending, path);
      if path !in disk.disk.content {   // gone since the lookup: open() raises
        return FileVanished;
      }
      var file := disk.disk.content[path];
      var sent := 0;
      while sent < length
        invariant sent == |client.received| <= length && client.received == file[start..start + sent] && !client.gone
        invariant Serving(obj, m, parts) && Kept(a, View(), a.pending)
      {
        var n := Min(READ, length - sent);
        client.Send(file[start + sent..start + sent + n]);
        if client.gone {
          return ClientGone;
        }
        ghost var b := View();
        OthersRun({}, obj, m, parts);
        KeptSince(a, b, View(), {});
        sent := sent + n;
      }
      end := AllSent;
    }

    /** Segment selection: the segments select exactly the range. */
    method Segments(m: Manifest, start: nat, length: nat, ghost parts: seq<seq<Byte>>) returns (segs: seq<Segment>)
      requires Fits(parts, m.chunks) && m.totalSize == |Concat(parts)| && start + length <= m.totalSize
      ensures Within(parts, segs) && Gather(parts, segs) == Concat(parts)[start..start + length]
    {
      hide SizeOf, Concat, Gather;
      ConcatSize(parts, m.chunks);
      GatherNothing(parts);
      if length == 0 {
        return [];
      }
      var mapped := MapRange(m, start, start + length);
      segs := mapped.value;
      TilesGather(m.chunks, segs, start, start + length, parts);
    }

    /** The cache lookup finds a file exactly when the cache holds one for the object, and the file holds
      * the object. */
    method LookUp(obj: string, ghost m: Manifest, ghost parts: seq<seq<Byte>>) returns (path: Option<nat>)
      requires Serving(obj, m, parts)
      modifies disk, disk.disk
      ensures Serving(obj, m, parts) && View() == old(View()) && path == old(CachedFile(obj))
      ensures path.Some? ==>
        && path.value in disk.disk.content && disk.disk.content[path.value] == Concat(parts)
        && path.value !in disk.pending && path.value < disk.disk.nextPath
    {
      hide Without, Consistent, Concat, DescribedIn, Channel.Valid, ChunkMicroCache.Valid;
      WithoutMembers(disk.entries, obj);
      path := disk.Get(obj);
      if path.Some? {
        assert path.value in Paths(disk.entries);
      }
    }

    /** The body of an answer: from the disk cache, filling it, or straight from the chunks. */
    method SendBody(caller: Caller, obj: string, m: Manifest, start: nat, length: nat, full: bool, cacheOn: bool,
                    useCache: bool, client: Client, ghost parts: seq<seq<Byte>>)
      returns (end: End)
      requires Serving(obj, m, parts) && client.received == [] && !client.gone
      requires Fits(parts, m.chunks) && m.totalSize == |Concat(parts)| && start + length <= m.totalSize
      requires full ==> start == 0 && length == m.totalSize
      modifies this, channel, micro, disk, disk.disk, client, caller`failedOpens
      ensures Serving(obj, m, parts) && Kept(old(View()), View(), old(disk.pending))
      ensures Delivered(client.received, client.gone, end, Concat(parts)[start..start + length],
                        caller.failedOpens - old(caller.failedOpens), Lacking(m))
      ensures FromCache(cacheOn, old(CachedFile(obj)), end, caller.failedOpens - old(caller.failedOpens),
                        lostFiles)
      ensures cacheOn && useCache && full && end == AllSent && old(CachedFile(obj)) == None ==>
        0 < m.totalSize <= disk.maxBytes ==> HasKey(disk.entries, obj)
    {
      hide Kept, Serving, Concat, Gather, Fits, Within, Find, HasKey;
      var segs := Segments(m, start, length, parts);
      if cacheOn {
        var path := LookUp(obj, m, parts);
        if path.Some? {
          end := CachedStream(path.value, start, length, client, obj, m, parts);
          return;
        }
      }
      if cacheOn && useCache && full && m.totalSize > 0 {
        assert Concat(parts)[0..|Concat(parts)|] == Concat(parts);
        ghost var temporary;
        end, temporary := FillingStream(caller, obj, m, segs, client, parts);
      } else {
        end := Stream(caller, obj, m, segs, client, parts);
      }
    }

    /** The download handler after authentication.  useCache says whether the object is small enough for
      * the disk cache.  The client is sent exactly what the range asked for, whatever the caches hold and
      * whatever else happens meanwhile, unless it hangs up, or three fetches fail, or a cached file is
      * removed before it is opened.  Every other object stays as it is. */
    method Download(caller: Caller, obj: string, m: Manifest, h: RangeHeader, cacheOn: bool, useCache: bool,
        client: Client)
      returns (r: Response)
      requires Valid() && Describes(obj, m) && client.received == [] && !client.gone
      modifies this, channel, micro, disk, disk.disk, client, caller`failedOpens
      ensures Valid() && Describes(obj, m) && Kept(old(View()), View(), old(disk.pending))
      ensures objects[obj] == old(objects[obj])
      ensures Answers(r, client.received, client.gone, caller.failedOpens - old(caller.failedOpens), Lacking(m), h,
                      Concat(objects[obj]))
      ensures r.Body? ==>
        FromCache(cacheOn, old(CachedFile(obj)), r.end, caller.failedOpens - old(caller.failedOpens), lostFiles)
      ensures cacheOn && useCache && h.Absent? && r.Body? && r.end == AllSent && old(CachedFile(obj)) == None ==>
        0 < m.totalSize <= disk.maxBytes ==> HasKey(disk.entries, obj)
    {
      hide DiskLRU.Valid, ChunkMicroCache.Valid, Channel.Valid, Coherent, Truthful, Concat, Kept, FromCache, Find,
           Delivered, Selects, HasKey;
      ghost var parts := objects[obj];
      DescribedFits(View(), obj, m);
      var range := ParseRange(h, m.totalSize);
      if h.Given? {
        ParseRangeSelects(h, m.totalSize);
      }
      if range.Unsatisfiable? {
        KeptSelf(View(), disk.pending);
        return RangeNotSatisfiable;
      }
      var start := if range.Full? then 0 else range.start;
      var length := if range.Full? then m.totalSize else range.end + 1 - range.start;
      var end := SendBody(caller, obj, m, start, length, range.Full?, cacheOn, useCache, client, parts);
      r := Body(start, length, end);
      assert Concat(parts)[0..|Concat(parts)|] == Concat(parts);
    }
  }

  /** When the cache has a file for the object the backend is not asked, and the body fails only if others
    * have removed that file; otherwise no file can vanish. */
  ghost predicate FromCache(cacheOn: bool, file: Option<nat>, end: End, failed: int, lostFiles: set<nat>) {
    if cacheOn && file.Some? then
      end != BackendFailed && failed == 0 && (end == FileVanished ==> file.value in lostFiles)
    else end != FileVanished
  }

  /** Blobs may go and one come: none is rewritten. */
  lemma Disturbed(blobs: map<Handle, seq<Byte>>, nextId: nat, gone: set<Handle>, member: nat, data: seq<Byte>)
    requires forall h :: h in blobs ==> h.1 < nextId
    ensures NothingRewritten(blobs, nextId, (blobs - gone)[(member, nextId) := data], nextId + 1)
  {
  }

  lemma EndsWithKey<V>(es: seq<Entry<string, V>>, key: string)
    requires es != [] && es[|es| - 1].key == key
    ensures HasKey(es, key)
  {
  }

  lemma GatherNothing(parts: seq<seq<Byte>>)
    ensures Gather(parts, []) == []
  {
  }

  ghost predicate Within(parts: seq<seq<Byte>>, segs: seq<Segment>) {
    forall k :: 0 <= k < |segs| ==>
      segs[k].chunk < |parts| && segs[k].offset + segs[k].length <= |parts[segs[k].chunk]|
  }

  /** The bytes of one segment. */
  ghost function Piece(parts: seq<seq<Byte>>, segs: seq<Segment>, k: nat): seq<Byte>
    requires Within(parts, segs) && k < |segs|
  {
    parts[segs[k].chunk][segs[k].offset..segs[k].offset + segs[k].length]
  }

  lemma {:induction false} GatherPrefix(parts: seq<seq<Byte>>, segs: seq<Segment>, k: nat)
    requires Within(parts, segs) && k <= |segs|
    ensures Gather(parts, segs[..k]) <= Gather(parts, segs)
    decreases |segs|
  {
    if k == |segs| {
      assert segs[..k] == segs;
    } else {
      var init := segs[..|segs| - 1];
      assert init[..k] == segs[..k];
      GatherPrefix(parts, init, k);
    }
  }

  lemma GatherStep(parts: seq<seq<Byte>>, segs: seq<Segment>, k: nat)
    requires Within(parts, segs) && k < |segs|
    ensures Gather(parts, segs[..k + 1]) == Gather(parts, segs[..k]) + Piece(parts, segs, k)
    ensures Gather(parts, segs[..k + 1]) <= Gather(parts, segs)
  {
    assert segs[..k + 1][..k] == segs[..k];
    GatherPrefix(parts, segs, k + 1);
  }
}
