/** ObjectService of src/anbar/object_service.py, driving chunk_stream of src/anbar/objects.py. */
module ObjectStore {
  import opened Bytes
  import opened Manifests
  import opened Storage
  import opened Uploads
  import opened Pool = BotPool

  datatype Failure = TooLarge | ClientStalled | Flooded | RefusedByBackend | Died

  datatype Outcome = Stored(hashed: seq<Byte>) | Failed(why: Failure) | ResumeOutOfRange

  /** The fixed part of one service: the pool's member names (none without a pool), the storage
    * backend's number, which is a pool member's exactly when the pool owns the backend, the checkpoint
    * key, and how many chunks to resume from. */
  datatype Config = Config(names: seq<string>, backend: nat, key: Option<string>, resumeFrom: nat) {
    predicate Distributes() {
      |names| > 1 && backend < |names|
    }

    /** Every member can be found again under its name. */
    predicate WellNamed() {
      Distinct(names) && forall i :: 0 <= i < |names| ==> names[i] != ""
    }

    /** The member a chunk is deleted from and read from. */
    function HolderOf(name: Option<string>): nat {
      if name.Some? && name.value != "" && names != [] then ByName(names, name).value else backend
    }

    function HandleOf(c: Chunk): Handle {
      (HolderOf(c.backend), c.fileId)
    }

    /** A posted chunk names a pool member exactly when the chunks are distributed. */
    predicate Names(c: Chunk) {
      (c.backend.Some? <==> Distributes()) && (c.backend.Some? ==> c.backend.value in names)
    }
  }

  /** What a run works on.  theirs is what the channel would hold if this run had never touched it:
    * what it held at the start and what other requests have done since.  posts counts the run's own. */
  datatype State = State(
    chunks: seq<Chunk>,
    blobs: map<Handle, seq<Byte>>,
    nextId: nat,
    rows: map<string, Saved>,
    theirs: map<Handle, seq<Byte>>,
    posts: nat)

  // ----- checkpoints -----

  function ToRecord(c: Chunk): Record {
    Record(c.size, c.fileId, c.messageId, if c.backend.Some? && c.backend.value != "" then c.backend else None)
  }

  function FromRecord(i: nat, r: Record): Chunk {
    Chunk(i, r.s, r.f, r.m, None, r.k)
  }

  function ToRecords(chunks: seq<Chunk>): (rs: seq<Record>)
    ensures |rs| == |chunks|
  {
    seq(|chunks|, i requires 0 <= i < |chunks| => ToRecord(chunks[i]))
  }

  function FromRecords(rs: seq<Record>): (chunks: seq<Chunk>)
    ensures |chunks| == |rs|
  {
    seq(|rs|, i requires 0 <= i < |rs| => FromRecord(i, rs[i]))
  }

  /** The chunks a checkpoint key records; a missing or unreadable row records none. */
  function Recorded(rows: map<string, Saved>, key: Option<string>): seq<Record> {
    if key.Some? && key.value in rows && rows[key.value].Envelope? then rows[key.value].chunks else []
  }

  // ----- what chunks hold -----

  ghost predicate HoldsAt(cfg: Config, blobs: map<Handle, seq<Byte>>, c: Chunk, i: nat, part: seq<Byte>) {
    && c.index == i && c.size == |part| && c.messageId == Some(c.fileId) && c.backend != Some("")
    && (c.botFileId == None || c.botFileId == Some(c.fileId))
    && cfg.HandleOf(c) in blobs && blobs[cfg.HandleOf(c)] == part
  }

  /** Chunk i's blob, fetched from the member the chunk names, is parts[i]. */
  ghost predicate Holds(cfg: Config, blobs: map<Handle, seq<Byte>>, chunks: seq<Chunk>, parts: seq<seq<Byte>>) {
    |chunks| == |parts| && forall i :: 0 <= i < |chunks| ==> HoldsAt(cfg, blobs, chunks[i], i, parts[i])
  }

  /** The first n chunks of the checkpoint hold the first n chunks of a content. */
  ghost predicate RecordedHold(cfg: Config, blobs: map<Handle, seq<Byte>>, rows: map<string, Saved>,
          parts: seq<seq<Byte>>, n: nat)
  {
    && n <= |Recorded(rows, cfg.key)| && n <= |parts|
    && Holds(cfg, blobs, FromRecords(Recorded(rows, cfg.key)[..n]), parts[..n])
  }

  /** The checkpoint's chunks hold the leading chunks of a content: an upload of it can go on. */
  ghost predicate Resumable(cfg: Config, blobs: map<Handle, seq<Byte>>, rows: map<string, Saved>,
          parts: seq<seq<Byte>>)
  {
    RecordedHold(cfg, blobs, rows, parts, |Recorded(rows, cfg.key)|)
  }

  lemma ResumableFewer(cfg: Config, blobs: map<Handle, seq<Byte>>, rows: map<string, Saved>, parts: seq<seq<Byte>>,
          n: nat)
    requires Resumable(cfg, blobs, rows, parts) && n <= |Recorded(rows, cfg.key)|
    ensures RecordedHold(cfg, blobs, rows, parts, n)
  {
    hide HoldsAt;
    var rs := Recorded(rows, cfg.key);
    forall i | 0 <= i < n
      ensures HoldsAt(cfg, blobs, FromRecords(rs[..n])[i], i, parts[..n][i])
    {
      assert HoldsAt(cfg, blobs, FromRecords(rs[..|rs|])[i], i, parts[..|rs|][i]);
    }
  }

  /** The blobs rollback asks to delete. */
  function Deletions(cfg: Config, chunks: seq<Chunk>): set<Handle> {
    set c | c in chunks && c.messageId.Some? :: (cfg.HolderOf(c.backend), c.messageId.value)
  }

  lemma DeletionsSplit(cfg: Config, a: seq<Chunk>, b: seq<Chunk>)
    ensures Deletions(cfg, a + b) == Deletions(cfg, a) + Deletions(cfg, b)
  {
    forall h | h in Deletions(cfg, a) + Deletions(cfg, b)
      ensures h in Deletions(cfg, a + b)
    {
      var c :| (c in a || c in b) && c.messageId.Some? && h == (cfg.HolderOf(c.backend), c.messageId.value);
      assert c in a + b;
    }
  }

  lemma DeletionsOne(cfg: Config, c: Chunk)
    ensures Deletions(cfg, [c]) == if c.messageId.Some? then {(cfg.HolderOf(c.backend), c.messageId.value)} else {}
  {
  }

  lemma DeletionsAt(cfg: Config, blobs: map<Handle, seq<Byte>>, chunks: seq<Chunk>, i: nat, part: seq<Byte>)
    requires i < |chunks| && HoldsAt(cfg, blobs, chunks[i], i, part)
    ensures cfg.HandleOf(chunks[i]) in Deletions(cfg, chunks) && cfg.HandleOf(chunks[i]) in blobs
  {
    assert chunks[i] in chunks;
  }

  /** A checkpoint forgets a chunk's handle for bots, and nothing else. */
  lemma RecordForgets(c: Chunk)
    requires c.backend != Some("")
    ensures FromRecord(c.index, ToRecord(c)) == c.(botFileId := None)
  {
  }

  /** A checkpoint forgets nothing that matters for finding a chunk. */
  lemma RecordKeepsHandle(cfg: Config, blobs: map<Handle, seq<Byte>>, c: Chunk, i: nat, part: seq<Byte>)
    requires HoldsAt(cfg, blobs, c, i, part)
    ensures HoldsAt(cfg, blobs, FromRecord(i, ToRecord(c)), i, part)
  {
  }

  // ----- other requests -----

  predicate SameRow(key: Option<string>, a: map<string, Saved>, b: map<string, Saved>) {
    key.Some? ==> (key.value in a <==> key.value in b) && (key.value in a ==> a[key.value] == b[key.value])
  }

  /** The blobs of an upload: those of the chunks it has listed and of its checkpoint. */
  function Mine(cfg: Config, s: State): set<Handle> {
    Deletions(cfg, s.chunks) + Deletions(cfg, FromRecords(Recorded(s.rows, cfg.key)))
  }

  ghost predicate Keeps(mine: set<Handle>, before: map<Handle, seq<Byte>>, after: map<Handle, seq<Byte>>) {
    forall h :: h in mine && h in before ==> h in after && after[h] == before[h]
  }

  /** Outside apart the channel holds what it would hold without this run. */
  ghost predicate AgreeBut(apart: set<Handle>, s: State) {
    forall h :: h !in apart ==> (h in s.blobs <==> h in s.theirs) && (h in s.blobs ==> s.blobs[h] == s.theirs[h])
  }

  /** Others have not brought a handle of apart back. */
  ghost predicate StayApart(apart: set<Handle>, s: State, t: State) {
    forall h :: h in apart && h in t.theirs ==> h in s.theirs || h.1 >= s.nextId
  }

  /** What other requests may do between two awaits of a run: post, delete blobs that are not this
    * upload's, write other checkpoints.  Nobody rewrites a blob. */
  ghost predicate OthersOnly(cfg: Config, mine: set<Handle>, apart: set<Handle>, s: State, t: State) {
    && t.chunks == s.chunks && t.posts == s.posts && SameRow(cfg.key, s.rows, t.rows)
    && NothingRewritten(s.blobs, s.nextId, t.blobs, t.nextId)
    && Keeps(mine, s.blobs, t.blobs) && AgreeBut(apart, t) && StayApart(apart, s, t)
  }

  lemma MineIs(cfg: Config, s: State)
    ensures Mine(cfg, s) == Deletions(cfg, s.chunks) + Deletions(cfg, FromRecords(Recorded(s.rows, cfg.key)))
  {
  }

  lemma OtherRow(key: Option<string>, rows: map<string, Saved>, other: string, row: Saved)
    ensures SameRow(key, rows, rows) && (key != Some(other) ==> SameRow(key, rows, rows[other := row]))
  {
  }

  lemma NotRewrittenByOthers(cfg: Config, start: State, s: State, t: State)
    requires NothingRewritten(start.blobs, start.nextId, s.blobs, s.nextId)
    requires OthersOnly(cfg, Mine(cfg, s), Deletions(cfg, s.chunks), s, t)
    ensures NothingRewritten(start.blobs, start.nextId, t.blobs, t.nextId)
  {
  }

  lemma MineStays(cfg: Config, s: State, t: State)
    requires t.chunks == s.chunks && SameRow(cfg.key, s.rows, t.rows)
    ensures Mine(cfg, t) == Mine(cfg, s)
  {
  }

  lemma OthersTwice(cfg: Config, mine: set<Handle>, apart: set<Handle>, s: State, t: State, u: State)
    requires OthersOnly(cfg, mine, apart, s, t) && OthersOnly(cfg, mine, apart, t, u)
    ensures OthersOnly(cfg, mine, apart, s, u)
  {
  }

  // ----- the store loop on values -----

  /** A blob of this run is on the channel under handle h, besides what others have done. */
  ghost predicate Arrived(cfg: Config, s: State, h: Handle, data: seq<Byte>, t: State) {
    && t.chunks == s.chunks && t.posts == s.posts + 1 && SameRow(cfg.key, s.rows, t.rows)
    && s.nextId <= h.1 && h in t.blobs && t.blobs[h] == data && h !in t.theirs
    && NothingRewritten(s.blobs, s.nextId, t.blobs, t.nextId)
    && Keeps(Mine(cfg, s), s.blobs, t.blobs)
    && AgreeBut(Deletions(cfg, s.chunks) + {h}, t) && StayApart(Deletions(cfg, s.chunks), s, t)
  }

  /** Others ran, one blob was posted, others ran again. */
  lemma ArrivedAmongOthers(cfg: Config, s: State, t: State, h: Handle, data: seq<Byte>, u: State, v: State)
    requires OthersOnly(cfg, Mine(cfg, s), Deletions(cfg, s.chunks), s, t)
    requires FreshIds(t) && h.1 == t.nextId
    requires u == t.(blobs := t.blobs[h := data], nextId := t.nextId + 1, posts := t.posts + 1) && h !in t.theirs
    requires OthersOnly(cfg, Mine(cfg, u) + {h}, Deletions(cfg, u.chunks) + {h}, u, v)
    ensures Arrived(cfg, s, h, data, v)
  {
    hide Deletions, Recorded, FromRecords;
    MineStays(cfg, s, t);
    MineStays(cfg, s, u);
  }

  lemma FreshChannel(channel: Channel)
    requires channel.Valid()
    ensures forall h :: h in channel.blobs ==> h.1 < channel.nextId
  {
  }

  lemma OthersStep(cfg: Config, mine: set<Handle>, apart: set<Handle>, s: State, gone: set<Handle>, h: Handle,
                   data: seq<Byte>, t: State)
    requires AgreeBut(apart, s) && (forall g :: g in s.blobs ==> g.1 < s.nextId)
    requires h.1 == s.nextId && SameRow(cfg.key, s.rows, t.rows)
    requires t == s.(blobs := (s.blobs - (gone - mine))[h := data], theirs := (s.theirs - (gone - mine))[h := data],
                     nextId := s.nextId + 1, rows := t.rows)
    ensures OthersOnly(cfg, mine, apart, s, t)
  {
  }

  /** What a killed run leaves of itself. */
  ghost predicate Survives(cfg: Config, s: State, t: State) {
    && t.chunks == s.chunks && t.posts == s.posts && SameRow(cfg.key, s.rows, t.rows)
    && NothingRewritten(s.blobs, s.nextId, t.blobs, t.nextId) && Keeps(Mine(cfg, s), s.blobs, t.blobs)
    && forall h :: h in t.theirs && h !in Deletions(cfg, s.chunks) ==> h in t.blobs
  }

  lemma NotTheirs(cfg: Config, t: State, h: Handle, data: seq<Byte>, u: State)
    requires FreshIds(t) && AgreeBut(Deletions(cfg, t.chunks), t) && h.1 == t.nextId
    requires u == t.(blobs := t.blobs[h := data], nextId := t.nextId + 1, posts := t.posts + 1)
    ensures h !in t.theirs && AgreeBut(Deletions(cfg, u.chunks) + {h}, u)
  {
    hide Deletions;
  }

  /** A second send goes on where the first one left off. */
  lemma SentLater(cfg: Config, s: State, t: State, u: State, h: Handle, data: seq<Byte>)
    requires OthersOnly(cfg, Mine(cfg, s), Deletions(cfg, s.chunks), s, t)
    ensures Arrived(cfg, t, h, data, u) ==> Arrived(cfg, s, h, data, u)
    ensures OthersOnly(cfg, Mine(cfg, t), Deletions(cfg, t.chunks), t, u) ==>
      OthersOnly(cfg, Mine(cfg, s), Deletions(cfg, s.chunks), s, u)
    ensures Survives(cfg, t, u) ==> Survives(cfg, s, u)
  {
    hide Deletions, Mine;
    MineStays(cfg, s, t);
  }

  lemma KilledWhileSending(cfg: Config, s: State, t: State, u: State, h: Handle, data: seq<Byte>)
    requires OthersOnly(cfg, Mine(cfg, s), Deletions(cfg, s.chunks), s, t) && FreshIds(t) && h.1 == t.nextId
    requires u == t || u == t.(blobs := t.blobs[h := data], nextId := t.nextId + 1)
    ensures Survives(cfg, s, u)
  {
    hide Deletions, Mine;
  }

  /** One chunk was posted, listed and checkpointed. */
  ghost predicate Posted(cfg: Config, s: State, data: seq<Byte>, t: State) {
    && |t.chunks| == |s.chunks| + 1 && t.chunks[..|s.chunks|] == s.chunks && t.posts == s.posts + 1
    && var c := t.chunks[|s.chunks|];
    && HoldsAt(cfg, t.blobs, c, |s.chunks|, data) && cfg.Names(c)
    && s.nextId <= c.fileId && cfg.HandleOf(c) !in t.theirs
    && NothingRewritten(s.blobs, s.nextId, t.blobs, t.nextId)
    && Keeps(Mine(cfg, s), s.blobs, t.blobs)
    && AgreeBut(Deletions(cfg, t.chunks), t) && StayApart(Deletions(cfg, s.chunks), s, t)
    && (cfg.key.Some? ==> cfg.key.value in t.rows && t.rows[cfg.key.value] == Envelope(ToRecords(t.chunks)))
  }

  lemma ArrivedIsPosted(cfg: Config, s: State, c: Chunk, data: seq<Byte>, t: State, u: State)
    requires Arrived(cfg, s, cfg.HandleOf(c), data, t)
    requires c.index == |s.chunks| && c.size == |data| && c.messageId == Some(c.fileId) && c.backend != Some("")
    requires cfg.Names(c) && (c.botFileId == None || c.botFileId == Some(c.fileId))
    requires u == t.(chunks := s.chunks + [c], rows := u.rows)
    requires cfg.key.Some? ==> cfg.key.value in u.rows && u.rows[cfg.key.value] == Envelope(ToRecords(u.chunks))
    ensures Posted(cfg, s, data, u)
  {
    hide Deletions, Mine, ToRecords, Config.Names;
    DeletionsSplit(cfg, s.chunks, [c]);
    DeletionsOne(cfg, c);
  }

  /** handed are the chunks the stream has given so far; the first resumeFrom of them were dropped in
    * favour of the checkpointed ones and each other one was posted once.  Besides those posts the channel
    * holds what it would hold without this run; the chunks resumed from are untouched. */
  ghost predicate Progress(cfg: Config, start: State, handed: seq<seq<Byte>>, t: State) {
    var j := cfg.resumeFrom;
    && |start.chunks| == j && |t.chunks| == (if |handed| < j then j else |handed|)
    && t.chunks[..j] == start.chunks
    && start.nextId <= t.nextId && t.posts == start.posts + |t.chunks| - j
    && (forall i :: j <= i < |t.chunks| ==>
         HoldsAt(cfg, t.blobs, t.chunks[i], i, handed[i]) && cfg.HandleOf(t.chunks[i]) !in t.theirs
         && start.nextId <= t.chunks[i].fileId && cfg.Names(t.chunks[i]))
    && Keeps(Deletions(cfg, start.chunks), start.blobs, t.blobs)
    && AgreeBut(Deletions(cfg, t.chunks), t)
    && if |t.chunks| == j then SameRow(cfg.key, start.rows, t.rows) && Keeps(Mine(cfg, start), start.blobs, t.blobs)
       else cfg.key.Some? ==> cfg.key.value in t.rows && t.rows[cfg.key.value] == Envelope(ToRecords(t.chunks))
  }

  predicate FreshIds(s: State) {
    && (forall h :: h in s.blobs ==> h.1 < s.nextId) && (forall h :: h in s.theirs ==> h.1 < s.nextId)
    && forall g, h :: g in s.blobs && h in s.blobs && g.1 == h.1 ==> g == h
  }

  lemma NotRewrittenByPost(cfg: Config, start: State, s: State, data: seq<Byte>, t: State)
    requires NothingRewritten(start.blobs, start.nextId, s.blobs, s.nextId) && Posted(cfg, s, data, t)
    ensures NothingRewritten(start.blobs, start.nextId, t.blobs, t.nextId)
  {
  }

  lemma NotRewrittenByDeath(cfg: Config, start: State, s: State, t: State)
    requires NothingRewritten(start.blobs, start.nextId, s.blobs, s.nextId) && Survives(cfg, s, t)
    ensures NothingRewritten(start.blobs, start.nextId, t.blobs, t.nextId)
  {
  }

  lemma ProgressStarts(cfg: Config, start: State)
    requires |start.chunks| == cfg.resumeFrom && start.theirs == start.blobs
    ensures Progress(cfg, start, [], start)
  {
  }

  lemma ProgressSkips(cfg: Config, start: State, handed: seq<seq<Byte>>, t: State, part: seq<Byte>)
    requires Progress(cfg, start, handed, t) && |handed| < cfg.resumeFrom
    ensures Progress(cfg, start, handed + [part], t)
  {
  }

  lemma HoldsAtKept(cfg: Config, mine: set<Handle>, b: map<Handle, seq<Byte>>, more: map<Handle, seq<Byte>>, c: Chunk,
                    i: nat, part: seq<Byte>)
    requires HoldsAt(cfg, b, c, i, part) && Keeps(mine, b, more) && cfg.HandleOf(c) in mine
    ensures HoldsAt(cfg, more, c, i, part)
  {
  }

  lemma StaysOut(apart: set<Handle>, s: State, t: State, h: Handle)
    requires StayApart(apart, s, t) && h in apart && h !in s.theirs && h in s.blobs && FreshIds(s)
    ensures h !in t.theirs
  {
  }

  lemma KeepsMore(a: set<Handle>, b: set<Handle>, x: map<Handle, seq<Byte>>, y: map<Handle, seq<Byte>>,
                  z: map<Handle, seq<Byte>>)
    requires Keeps(a, x, y) && Keeps(b, y, z) && a <= b
    ensures Keeps(a, x, z)
  {
  }

  lemma ListedIsMine(cfg: Config, start: State, t: State)
    requires start.chunks <= t.chunks
    ensures Deletions(cfg, start.chunks) <= Deletions(cfg, t.chunks) <= Mine(cfg, t)
  {
    assert t.chunks == start.chunks + t.chunks[|start.chunks|..];
    DeletionsSplit(cfg, start.chunks, t.chunks[|start.chunks|..]);
  }

  /** Each chunk posted so far is still there after others ran. */
  lemma ChunksStay(cfg: Config, start: State, handed: seq<seq<Byte>>, s: State, blobs: map<Handle, seq<Byte>>, i: nat)
    requires Progress(cfg, start, handed, s) && cfg.resumeFrom <= i < |s.chunks|
    requires Keeps(Mine(cfg, s), s.blobs, blobs)
    ensures HoldsAt(cfg, blobs, s.chunks[i], i, handed[i])
    ensures cfg.HandleOf(s.chunks[i]) in Deletions(cfg, s.chunks) && cfg.HandleOf(s.chunks[i]) in s.blobs
  {
    hide Deletions, AgreeBut, Keeps;
    DeletionsAt(cfg, s.blobs, s.chunks, i, handed[i]);
    ListedIsMine(cfg, s, s);
    HoldsAtKept(cfg, Mine(cfg, s), s.blobs, blobs, s.chunks[i], i, handed[i]);
  }

  lemma ProgressOthers(cfg: Config, start: State, handed: seq<seq<Byte>>, s: State, t: State)
    requires Progress(cfg, start, handed, s) && FreshIds(s)
    requires OthersOnly(cfg, Mine(cfg, s), Deletions(cfg, s.chunks), s, t)
    ensures Progress(cfg, start, handed, t)
  {
    hide Deletions, AgreeBut, Keeps, StayApart, HoldsAt, FreshIds, Mine, ToRecords;
    var j := cfg.resumeFrom;
    forall i | j <= i < |t.chunks|
      ensures HoldsAt(cfg, t.blobs, t.chunks[i], i, handed[i]) && cfg.HandleOf(t.chunks[i]) !in t.theirs
    {
      ChunksStay(cfg, start, handed, s, t.blobs, i);
      StaysOut(Deletions(cfg, s.chunks), s, t, cfg.HandleOf(s.chunks[i]));
    }
    assert start.chunks <= s.chunks;
    ListedIsMine(cfg, start, s);
    KeepsMore(Deletions(cfg, start.chunks), Mine(cfg, s), start.blobs, s.blobs, t.blobs);
    if |s.chunks| == j {
      MineStays(cfg, start, s);
      KeepsMore(Mine(cfg, start), Mine(cfg, s), start.blobs, s.blobs, t.blobs);
    }
  }

  lemma ProgressPosts(cfg: Config, start: State, handed: seq<seq<Byte>>, s: State, part: seq<Byte>, t: State)
    requires Progress(cfg, start, handed, s) && |handed| >= cfg.resumeFrom
    requires Posted(cfg, s, part, t) && FreshIds(s)
    ensures Progress(cfg, start, handed + [part], t)
  {
    hide Deletions, AgreeBut, Keeps, StayApart, HoldsAt, FreshIds, Mine, ToRecords, Config.Names;
    var j := cfg.resumeFrom;
    forall i | j <= i < |t.chunks|
      ensures HoldsAt(cfg, t.blobs, t.chunks[i], i, (handed + [part])[i]) && cfg.HandleOf(t.chunks[i]) !in t.theirs
    {
      if i < |s.chunks| {
        assert t.chunks[i] == t.chunks[..|s.chunks|][i] == s.chunks[i];
        ChunksStay(cfg, start, handed, s, t.blobs, i);
        StaysOut(Deletions(cfg, s.chunks), s, t, cfg.HandleOf(s.chunks[i]));
      }
    }
    assert t.chunks[..j] == t.chunks[..|s.chunks|][..j] == start.chunks;
    assert start.chunks <= s.chunks;
    ListedIsMine(cfg, start, s);
    KeepsMore(Deletions(cfg, start.chunks), Mine(cfg, s), start.blobs, s.blobs, t.blobs);
  }

  lemma HoldsKept(cfg: Config, b: map<Handle, seq<Byte>>, more: map<Handle, seq<Byte>>, chunks: seq<Chunk>,
                  parts: seq<seq<Byte>>)
    requires Holds(cfg, b, chunks, parts) && Keeps(Deletions(cfg, chunks), b, more)
    ensures Holds(cfg, more, chunks, parts)
  {
    hide HoldsAt, Deletions, Keeps;
    forall i | 0 <= i < |chunks|
      ensures HoldsAt(cfg, more, chunks[i], i, parts[i])
    {
      DeletionsAt(cfg, b, chunks, i, parts[i]);
      HoldsAtKept(cfg, Deletions(cfg, chunks), b, more, chunks[i], i, parts[i]);
    }
  }

  /** Once the stream has ended, the manifest's chunks hold the stream's chunks, re-used and new alike. */
  lemma AllHeld(cfg: Config, start: State, parts: seq<seq<Byte>>, t: State)
    requires Progress(cfg, start, parts, t) && cfg.resumeFrom <= |parts|
    requires Holds(cfg, start.blobs, start.chunks, parts[..cfg.resumeFrom])
    ensures Holds(cfg, t.blobs, t.chunks, parts)
  {
    hide HoldsAt, Deletions, Keeps, AgreeBut, Mine;
    var j := cfg.resumeFrom;
    HoldsKept(cfg, start.blobs, t.blobs, start.chunks, parts[..j]);
    forall i | 0 <= i < |t.chunks|
      ensures HoldsAt(cfg, t.blobs, t.chunks[i], i, parts[i])
    {
      if i < j {
        assert t.chunks[i] == t.chunks[..j][i] == start.chunks[i] && parts[i] == parts[..j][i];
        assert HoldsAt(cfg, t.blobs, start.chunks[i], i, parts[..j][i]);
      }
    }
  }

  /** Whenever the process dies, before or after a post, the upload can be resumed: the checkpoint's
    * chunks hold the leading chunks of the content. */
  lemma DeathLeavesResumable(cfg: Config, start: State, handed: seq<seq<Byte>>, t: State, u: State,
      parts: seq<seq<Byte>>)
    requires Progress(cfg, start, handed, t) && handed <= parts && Survives(cfg, t, u)
    requires Resumable(cfg, start.blobs, start.rows, parts) && cfg.resumeFrom <= |Recorded(start.rows, cfg.key)|
    requires start.chunks == FromRecords(Recorded(start.rows, cfg.key)[..cfg.resumeFrom])
    ensures Resumable(cfg, u.blobs, u.rows, parts)
  {
    hide HoldsAt, Deletions, Keeps, AgreeBut, NothingRewritten;
    var j, rs := cfg.resumeFrom, Recorded(start.rows, cfg.key);
    if cfg.key == None || |t.chunks| == j {
      assert rs[..|rs|] == rs;
      MineKept(cfg, start, t.blobs);
      HoldsKept(cfg, start.blobs, t.blobs, FromRecords(rs), parts[..|rs|]);
      MineKept(cfg, t, u.blobs);
      HoldsKept(cfg, t.blobs, u.blobs, FromRecords(rs), parts[..|rs|]);
    } else {
      ResumableFewer(cfg, start.blobs, start.rows, parts, j);
      assert parts[..|handed|] == handed && parts[..|handed|][..j] == parts[..j];
      AllHeld(cfg, start, handed, t);
      MineKept(cfg, t, u.blobs);
      HoldsKept(cfg, t.blobs, u.blobs, t.chunks, handed);
      CheckpointHolds(cfg, u.blobs, t.chunks, handed);
      assert ToRecords(t.chunks)[..|t.chunks|] == ToRecords(t.chunks);
    }
  }

  /** Of an upload's blobs, those listed and those recorded stay. */
  lemma MineKept(cfg: Config, s: State, blobs: map<Handle, seq<Byte>>)
    ensures Keeps(Mine(cfg, s), s.blobs, blobs) ==>
      && Keeps(Deletions(cfg, s.chunks), s.blobs, blobs)
      && Keeps(Deletions(cfg, FromRecords(Recorded(s.rows, cfg.key))), s.blobs, blobs)
  {
  }

  lemma CheckpointHolds(cfg: Config, blobs: map<Handle, seq<Byte>>, chunks: seq<Chunk>, parts: seq<seq<Byte>>)
    requires Holds(cfg, blobs, chunks, parts)
    ensures Holds(cfg, blobs, FromRecords(ToRecords(chunks)), parts)
  {
    forall i | 0 <= i < |chunks|
      ensures HoldsAt(cfg, blobs, FromRecords(ToRecords(chunks))[i], i, parts[i])
    {
      RecordKeepsHandle(cfg, blobs, chunks[i], i, parts[i]);
    }
  }

  // ----- rollback on values -----

  /** The listed blobs were asked to go, and others ran meanwhile. */
  ghost predicate Asked(cfg: Config, t: State, u: State) {
    AgreeBut(Deletions(cfg, t.chunks), u) && StayApart(Deletions(cfg, t.chunks), t, u)
  }

  /** Every listed blob that was there is gone; the other blobs of the upload and the checkpoint stay; the
    * rest is what others made of it. */
  ghost predicate Undone(cfg: Config, t: State, u: State) {
    var listed := Deletions(cfg, t.chunks);
    && (forall h :: h in listed && h in t.blobs ==> h !in u.blobs)
    && AgreeBut(listed, u) && StayApart(listed, t, u)
    && Keeps(Mine(cfg, t) - listed, t.blobs, u.blobs)
  }

  /** A rollback whose deletions succeed leaves the channel as it would be had the run never happened, less
    * the chunks the run had resumed from. */
  lemma RolledBack(cfg: Config, start: State, handed: seq<seq<Byte>>, t: State, u: State)
    requires Progress(cfg, start, handed, t) && FreshIds(t) && Undone(cfg, t, u)
    ensures AgreeBut(Deletions(cfg, start.chunks), u)
  {
    hide HoldsAt, Mine, Deletions, Keeps, StayApart;
    var j := cfg.resumeFrom;
    assert t.chunks == start.chunks + t.chunks[j..];
    DeletionsSplit(cfg, start.chunks, t.chunks[j..]);
    forall h | h in Deletions(cfg, t.chunks[j..])
      ensures h !in u.blobs && h !in u.theirs
    {
      PostedGone(cfg, start, handed, t, u, h);
    }
  }

  lemma PostedGone(cfg: Config, start: State, handed: seq<seq<Byte>>, t: State, u: State, h: Handle)
    requires Progress(cfg, start, handed, t) && FreshIds(t) && Undone(cfg, t, u)
    requires h in Deletions(cfg, t.chunks[cfg.resumeFrom..])
    ensures h !in u.blobs && h !in u.theirs
  {
    hide HoldsAt, Mine, AgreeBut, Keeps, StayApart;
    var c :| c in t.chunks[cfg.resumeFrom..] && c.messageId.Some? && h == (cfg.HolderOf(c.backend), c.messageId.value);
    var i :| cfg.resumeFrom <= i < |t.chunks| && t.chunks[i] == c;
    ChunkHandle(cfg, t.blobs, c, i, handed[i]);
    DeletionsAt(cfg, t.blobs, t.chunks, i, handed[i]);
    StaysOut(Deletions(cfg, t.chunks), t, u, h);
  }

  lemma ChunkHandle(cfg: Config, blobs: map<Handle, seq<Byte>>, c: Chunk, i: nat, part: seq<Byte>)
    requires HoldsAt(cfg, blobs, c, i, part)
    ensures c.messageId == Some(c.fileId) && cfg.HandleOf(c) == (cfg.HolderOf(c.backend), c.fileId) &&
      cfg.HandleOf(c) in blobs
  {
  }

  lemma FirstBlobGone(cfg: Config, blobs: map<Handle, seq<Byte>>, rows: map<string, Saved>, parts: seq<seq<Byte>>)
    requires Recorded(rows, cfg.key) != []
    requires cfg.HandleOf(FromRecord(0, Recorded(rows, cfg.key)[0])) !in blobs
    ensures !Resumable(cfg, blobs, rows, parts)
  {
    var rs := Recorded(rows, cfg.key);
    assert FromRecords(rs[..|rs|])[0] == FromRecord(0, rs[0]);
  }

  /** Rollback does not touch the checkpoint, so after a handled failure the upload can be resumed
    * exactly when nothing was resumed from and no chunk had been handed over. */
  lemma ResumableAfterRollback(cfg: Config, start: State, handed: seq<seq<Byte>>, t: State, u: State,
      parts: seq<seq<Byte>>)
    requires Progress(cfg, start, handed, t) && cfg.key.Some?
    requires Undone(cfg, t, u) && SameRow(cfg.key, t.rows, u.rows)
    requires Resumable(cfg, start.blobs, start.rows, parts) && cfg.resumeFrom <= |Recorded(start.rows, cfg.key)|
    requires start.chunks == FromRecords(Recorded(start.rows, cfg.key)[..cfg.resumeFrom])
    ensures Resumable(cfg, u.blobs, u.rows, parts) <==> cfg.resumeFrom == 0 && handed == []
  {
    hide AgreeBut, StayApart;
    var j, rs := cfg.resumeFrom, Recorded(start.rows, cfg.key);
    assert rs[..|rs|] == rs;
    if j == 0 && handed == [] {
      hide HoldsAt, Keeps, Deletions;
      NothingListed(cfg, t);
      MineKept(cfg, start, t.blobs);
      HoldsKept(cfg, start.blobs, t.blobs, FromRecords(rs), parts[..|rs|]);
      assert Mine(cfg, t) - {} == Mine(cfg, t);
      MineKept(cfg, t, u.blobs);
      HoldsKept(cfg, t.blobs, u.blobs, FromRecords(rs), parts[..|rs|]);
    } else {
      FirstListed(cfg, start, handed, t, parts);
      var now := Recorded(u.rows, cfg.key);
      assert cfg.HandleOf(FromRecord(0, now[0])) == cfg.HandleOf(t.chunks[0]);
      FirstBlobGone(cfg, u.blobs, u.rows, parts);
    }
  }

  lemma NothingListed(cfg: Config, t: State)
    requires t.chunks == []
    ensures Deletions(cfg, t.chunks) == {}
  {
  }

  /** The first listed chunk, resumed or posted, is on the channel and is the first one recorded. */
  lemma FirstListed(cfg: Config, start: State, handed: seq<seq<Byte>>, t: State, parts: seq<seq<Byte>>)
    requires Progress(cfg, start, handed, t) && cfg.key.Some? && (cfg.resumeFrom > 0 || handed != [])
    requires Resumable(cfg, start.blobs, start.rows, parts) && cfg.resumeFrom <= |Recorded(start.rows, cfg.key)|
    requires start.chunks == FromRecords(Recorded(start.rows, cfg.key)[..cfg.resumeFrom])
    ensures t.chunks != [] && Recorded(t.rows, cfg.key) != []
    ensures cfg.HandleOf(t.chunks[0]) in Deletions(cfg, t.chunks) && cfg.HandleOf(t.chunks[0]) in t.blobs
    ensures cfg.HandleOf(FromRecord(0, Recorded(t.rows, cfg.key)[0])) == cfg.HandleOf(t.chunks[0])
  {
    hide AgreeBut, Deletions, Mine;
    var j, rs := cfg.resumeFrom, Recorded(start.rows, cfg.key);
    if j > 0 {
      assert rs[..|rs|] == rs && rs[..j][0] == rs[0];
      assert t.chunks[0] == t.chunks[..j][0] == start.chunks[0] == FromRecords(rs)[0];
      assert HoldsAt(cfg, start.blobs, FromRecords(rs)[0], 0, parts[..|rs|][0]);
      DeletionsAt(cfg, start.blobs, start.chunks, 0, parts[..|rs|][0]);
      assert start.chunks <= t.chunks;
      ListedIsMine(cfg, start, t);
    } else {
      DeletionsAt(cfg, t.blobs, t.chunks, 0, handed[0]);
    }
  }

  // ----- whole runs -----

  /** The state once the resumed chunks are listed. */
  function Begin(cfg: Config, s: State): State
    requires cfg.resumeFrom <= |Recorded(s.rows, cfg.key)|
  {
    s.(chunks := FromRecords(Recorded(s.rows, cfg.key)[..cfg.resumeFrom]))
  }

  /** How one run of store_stream goes from s0 to s1.  last is where its loop stopped; others may have run
    * at any await before and after. */
  ghost predicate Sound(cfg: Config, s0: State, handed: seq<seq<Byte>>, parts: seq<seq<Byte>>, r: Outcome, last: State,
                        s1: State, allDeleted: bool)
  {
    if cfg.resumeFrom > |Recorded(s0.rows, cfg.key)| then r == ResumeOutOfRange && s1 == s0
    else
      && Progress(cfg, Begin(cfg, s0), handed, last) && FreshIds(last) && handed <= parts
      && NothingRewritten(s0.blobs, s0.nextId, last.blobs, last.nextId)
      && NothingRewritten(last.blobs, last.nextId, s1.blobs, s1.nextId)
      && s1.chunks == last.chunks && SameRow(cfg.key, last.rows, s1.rows)
      && match r
         case ResumeOutOfRange => false
         case Stored(_) => handed == parts && s1 == last
         case Failed(Died) => Survives(cfg, last, s1)
         case Failed(_) => s1.posts == last.posts && Asked(cfg, last, s1) && (allDeleted ==> Undone(cfg, last, s1))
  }

  /** One run of store_stream, from start to end. */
  datatype Run = Run(
    cfg: Config,
    s0: State,
    handed: seq<seq<Byte>>,
    r: Outcome,
    last: State,
    s1: State,
    allDeleted: bool)
  {
    ghost predicate Of(parts: seq<seq<Byte>>) {
      Sound(cfg, s0, handed, parts, r, last, s1, allDeleted)
    }
  }

  lemma RunRefused(cfg: Config, s0: State, parts: seq<seq<Byte>>)
    requires cfg.resumeFrom > |Recorded(s0.rows, cfg.key)|
    ensures Run(cfg, s0, [], ResumeOutOfRange, s0, s0, true).Of(parts)
  {
  }

  /** A run of store_stream has started with the chunks it resumes from. */
  lemma PriorChunks(cfg: Config, s0: State, prior: Option<seq<Record>>)
    requires prior.Some? && (cfg.key == None ==> cfg.resumeFrom == 0)
    requires var rs := Recorded(s0.rows, cfg.key);
             if cfg.key == None || cfg.resumeFrom == 0 then prior == Some([])
             else if cfg.resumeFrom > |rs| then prior == None
             else prior == Some(rs[..cfg.resumeFrom])
    requires s0.theirs == s0.blobs
    ensures cfg.resumeFrom <= |Recorded(s0.rows, cfg.key)|
    ensures s0.(chunks := FromRecords(prior.value)) == Begin(cfg, s0)
    ensures Progress(cfg, Begin(cfg, s0), [], Begin(cfg, s0))
  {
    ProgressStarts(cfg, Begin(cfg, s0));
  }

  lemma RunEnds(run: Run, parts: seq<seq<Byte>>)
    requires run.cfg.resumeFrom <= |Recorded(run.s0.rows, run.cfg.key)| && !run.r.ResumeOutOfRange?
    requires Progress(run.cfg, Begin(run.cfg, run.s0), run.handed, run.last) && FreshIds(run.last) &&
      run.handed <= parts
    requires NothingRewritten(run.s0.blobs, run.s0.nextId, run.last.blobs, run.last.nextId)
    requires NothingRewritten(run.last.blobs, run.last.nextId, run.s1.blobs, run.s1.nextId)
    requires run.r.Stored? ==> run.handed == parts && run.s1 == run.last
    requires run.r == Failed(Died) ==> Survives(run.cfg, run.last, run.s1)
    requires run.r.Failed? && run.r != Failed(Died) ==>
      && run.s1.chunks == run.last.chunks && SameRow(run.cfg.key, run.last.rows, run.s1.rows)
      && run.s1.posts == run.last.posts && Asked(run.cfg, run.last, run.s1)
      && (run.allDeleted ==> Undone(run.cfg, run.last, run.s1))
    ensures run.Of(parts)
  {
    hide Progress, Undone, Asked, FreshIds, NothingRewritten, Keeps, Recorded, FromRecords;
  }

  /** A completed upload.  Whether or not it resumed an earlier one, its manifest holds the content, and
    * exactly the chunks that were not resumed from were posted.  Of an earlier checkpoint only the part
    * that is resumed from matters. */
  lemma StoredUpload(run: Run, parts: seq<seq<Byte>>)
    requires run.Of(parts) && run.r.Stored?
    requires var cfg, s0 := run.cfg, run.s0;
             cfg.resumeFrom <= |Recorded(s0.rows, cfg.key)| ==>
               RecordedHold(cfg, s0.blobs, s0.rows, parts, cfg.resumeFrom)
    ensures Holds(run.cfg, run.s1.blobs, run.s1.chunks, parts)
    ensures run.s1.posts == run.s0.posts + |parts| - run.cfg.resumeFrom
  {
    hide Holds, Deletions, Mine, Keeps, AgreeBut;
    AllHeld(run.cfg, Begin(run.cfg, run.s0), parts, run.s1);
  }

  /** A killed upload can be resumed, any number of times. */
  lemma KilledUpload(run: Run, parts: seq<seq<Byte>>)
    requires run.Of(parts) && run.r == Failed(Died)
    requires Resumable(run.cfg, run.s0.blobs, run.s0.rows, parts)
    ensures Resumable(run.cfg, run.s1.blobs, run.s1.rows, parts)
  {
    hide Resumable, Progress, Survives;
    DeathLeavesResumable(run.cfg, Begin(run.cfg, run.s0), run.handed, run.last, run.s1, parts);
  }

  /** A handled failure whose deletions succeed.  The chunks resumed from are gone; every other blob of
    * every member is as it would be had this run never happened.  The upload can be resumed exactly when
    * it had resumed from nothing and no chunk had been handed over. */
  lemma FailedUpload(run: Run, parts: seq<seq<Byte>>)
    requires run.Of(parts) && run.r.Failed? && run.r.why != Died && run.allDeleted
    ensures var cfg, s0, s1 := run.cfg, run.s0, run.s1;
            var resumed := Deletions(cfg, Begin(cfg, s0).chunks);
            && AgreeBut(resumed, s1) && (forall h :: h in resumed && h in s0.blobs ==> h !in s1.blobs)
            && (cfg.resumeFrom == 0 ==> s1.blobs == s1.theirs)
            && (cfg.key.Some? && Resumable(cfg, s0.blobs, s0.rows, parts) ==>
                 (Resumable(cfg, s1.blobs, s1.rows, parts) <==> cfg.resumeFrom == 0 && run.handed == []))
  {
    hide Resumable, HoldsAt, Mine;
    var start := Begin(run.cfg, run.s0);
    RolledBack(run.cfg, start, run.handed, run.last, run.s1);
    assert start.chunks <= run.last.chunks;
    ListedIsMine(run.cfg, start, run.last);
    if run.cfg.resumeFrom == 0 {
      NothingListed(run.cfg, start);
      assert run.s1.blobs == run.s1.theirs;
    }
    if run.cfg.key.Some? && Resumable(run.cfg, run.s0.blobs, run.s0.rows, parts) {
      ResumableAfterRollback(run.cfg, start, run.handed, run.last, run.s1, parts);
    }
  }

  /** One chunk is posted and checkpointed, then the client goes silent and the blob is deleted. */
  function StalledRun(a: Byte): Run {
    var cfg, c := Config([], 0, Some("k"), 0), Chunk(0, 1, 0, Some(0), None, None);
    var last := State([c], map[(0, 0) := [a]], 1, map["k" := Envelope(ToRecords([c]))], map[], 1);
    Run(cfg, State([], map[], 0, map[], map[], 0), [[a]], Failed(ClientStalled), last, last.(blobs := map[]), true)
  }

  /** An instance: one chunk of two is posted and checkpointed, then the client goes silent.  The rollback
    * deletes the blob and keeps the checkpoint, from which the upload could be resumed before, and cannot
    * any more. */
  lemma StalledAfterOneChunk(a: Byte, b: Byte) returns (run: Run)
    ensures run == StalledRun(a) && run.Of([[a], [b]]) && run.r == Failed(ClientStalled) && run.allDeleted
    ensures run.cfg.resumeFrom == 0 && run.handed == [[a]] && run.cfg.key.Some?
    ensures Resumable(run.cfg, run.s0.blobs, run.s0.rows, [[a], [b]])
    ensures !Resumable(run.cfg, run.s1.blobs, run.s1.rows, [[a], [b]])
  {
    hide NothingRewritten;
    var cfg := Config([], 0, Some("k"), 0);
    var s0 := State([], map[], 0, map[], map[], 0);
    var c := Chunk(0, 1, 0, Some(0), None, None);
    var last := State([c], map[(0, 0) := [a]], 1, map["k" := Envelope(ToRecords([c]))], map[], 1);
    var s1 := last.(blobs := map[]);
    run := Run(cfg, s0, [[a]], Failed(ClientStalled), last, s1, true);
    OneChunkPosted(cfg, s0, c, [a], last);
    OneChunkUndone(cfg, last, c, s1);
    assert Begin(cfg, s0) == s0;
    assert [[a]] <= [[a], [b]];
    assert Recorded(s1.rows, cfg.key)[0] == ToRecord(c);
    FirstBlobGone(cfg, s1.blobs, s1.rows, [[a], [b]]);
  }

  lemma OneChunkPosted(cfg: Config, s: State, c: Chunk, data: seq<Byte>, t: State)
    requires s == State([], map[], 0, map[], map[], 0) && cfg.resumeFrom == 0 && cfg.key.Some? && cfg.names == []
    requires c == Chunk(0, |data|, 0, Some(0), None, None)
    requires t == State([c], map[cfg.HandleOf(c) := data], 1, map[cfg.key.value := Envelope(ToRecords([c]))], map[], 1)
    ensures Progress(cfg, s, [data], t) && FreshIds(t) && NothingRewritten(s.blobs, s.nextId, t.blobs, t.nextId)
  {
    DeletionsOne(cfg, c);
  }

  lemma OneChunkUndone(cfg: Config, t: State, c: Chunk, u: State)
    requires t.chunks == [c] && c.messageId == Some(c.fileId) && t.theirs == map[] && u == t.(blobs := map[])
    requires t.blobs.Keys == {cfg.HandleOf(c)} && cfg.key.Some? && cfg.key.value in t.rows
    requires t.rows[cfg.key.value] == Envelope(ToRecords([c]))
    ensures Undone(cfg, t, u) && Asked(cfg, t, u) && SameRow(cfg.key, t.rows, u.rows)
    ensures NothingRewritten(t.blobs, t.nextId, u.blobs, u.nextId)
  {
    DeletionsOne(cfg, c);
  }

  /** Between two attempts at an upload other requests may run. */
  ghost predicate TriedAgain(a: Run, b: Run) {
    && b.cfg == a.cfg.(resumeFrom := b.cfg.resumeFrom)
    && SameRow(a.cfg.key, a.s1.rows, b.s0.rows) && Keeps(Mine(a.cfg, a.s1), a.s1.blobs, b.s0.blobs)
  }

  lemma StillResumable(a: Run, b: Run, parts: seq<seq<Byte>>)
    requires TriedAgain(a, b) && Resumable(a.cfg, a.s1.blobs, a.s1.rows, parts)
    ensures Resumable(b.cfg, b.s0.blobs, b.s0.rows, parts)
  {
    hide Deletions, Keeps;
    var rs := Recorded(a.s1.rows, a.cfg.key);
    assert rs[..|rs|] == rs;
    MineKept(a.cfg, a.s1, b.s0.blobs);
    HoldsKept(a.cfg, a.s1.blobs, b.s0.blobs, FromRecords(rs), parts[..|rs|]);
    forall i | 0 <= i < |rs|
      ensures HoldsAt(b.cfg, b.s0.blobs, FromRecords(rs)[i], i, parts[..|rs|][i])
    {
      assert HoldsAt(a.cfg, b.s0.blobs, FromRecords(rs)[i], i, parts[..|rs|][i]);
    }
  }

  /** An upload killed any number of times, at any points, and each time sent again from any chunk not
    * past the checkpoint, among other requests: the attempt that completes has a manifest that holds the
    * content. */
  lemma {:induction false} KilledAndResumed(runs: seq<Run>, parts: seq<seq<Byte>>)
    requires runs != [] && runs[|runs| - 1].r.Stored?
    requires forall i :: 0 <= i < |runs| ==> runs[i].Of(parts)
    requires forall i :: 0 <= i < |runs| - 1 ==> runs[i].r == Failed(Died) && TriedAgain(runs[i], runs[i + 1])
    requires Resumable(runs[0].cfg, runs[0].s0.blobs, runs[0].s0.rows, parts)
    ensures var end := runs[|runs| - 1]; Holds(end.cfg, end.s1.blobs, end.s1.chunks, parts)
  {
    hide Run.Of, Resumable, TriedAgain;
    var a := runs[0];
    if |runs| == 1 {
      if a.cfg.resumeFrom <= |Recorded(a.s0.rows, a.cfg.key)| {
        ResumableFewer(a.cfg, a.s0.blobs, a.s0.rows, parts, a.cfg.resumeFrom);
      }
      StoredUpload(a, parts);
    } else {
      KilledUpload(a, parts);
      StillResumable(a, runs[1], parts);
      KilledAndResumed(runs[1..], parts);
    }
  }

  // ----- what no run can do -----

  /** Chunk i's blob, as long as it exists, is this part, under whichever member it is looked for. */
  ghost predicate TrueAt(blobs: map<Handle, seq<Byte>>, nextId: nat, c: Chunk, i: nat, part: seq<Byte>) {
    && c.index == i && c.size == |part| && c.messageId == Some(c.fileId) && c.backend != Some("")
    && (c.botFileId == None || c.botFileId == Some(c.fileId)) && c.fileId < nextId
    && forall h :: h in blobs && h.1 == c.fileId ==> blobs[h] == part
  }

  ghost predicate Truthful(blobs: map<Handle, seq<Byte>>, nextId: nat, chunks: seq<Chunk>, parts: seq<seq<Byte>>) {
    |chunks| == |parts| && forall i :: 0 <= i < |chunks| ==> TrueAt(blobs, nextId, chunks[i], i, parts[i])
  }

  /** The first n chunks of the checkpoint, as far as they still exist, are those of a content. */
  ghost predicate RecordedTrue(cfg: Config, blobs: map<Handle, seq<Byte>>, nextId: nat, rows: map<string, Saved>,
                               parts: seq<seq<Byte>>, n: nat)
  {
    && n <= |Recorded(rows, cfg.key)| && n <= |parts|
    && Truthful(blobs, nextId, FromRecords(Recorded(rows, cfg.key)[..n]), parts[..n])
  }

  ghost predicate TrueRecord(cfg: Config, blobs: map<Handle, seq<Byte>>, nextId: nat, rows: map<string, Saved>,
                             parts: seq<seq<Byte>>)
  {
    RecordedTrue(cfg, blobs, nextId, rows, parts, |Recorded(rows, cfg.key)|)
  }

  lemma HeldIsTrue(cfg: Config, t: State, c: Chunk, i: nat, part: seq<Byte>)
    requires FreshIds(t) && HoldsAt(cfg, t.blobs, c, i, part)
    ensures TrueAt(t.blobs, t.nextId, c, i, part)
  {
  }

  lemma StaysTrue(s: State, t: State, c: Chunk, i: nat, part: seq<Byte>)
    requires NothingRewritten(s.blobs, s.nextId, t.blobs, t.nextId) && TrueAt(s.blobs, s.nextId, c, i, part)
    ensures TrueAt(t.blobs, t.nextId, c, i, part)
  {
  }

  lemma TrueFewer(cfg: Config, blobs: map<Handle, seq<Byte>>, nextId: nat, rows: map<string, Saved>,
                  parts: seq<seq<Byte>>, n: nat)
    requires TrueRecord(cfg, blobs, nextId, rows, parts) && n <= |Recorded(rows, cfg.key)|
    ensures RecordedTrue(cfg, blobs, nextId, rows, parts, n)
  {
    hide TrueAt;
    var rs := Recorded(rows, cfg.key);
    forall i | 0 <= i < n
      ensures TrueAt(blobs, nextId, FromRecords(rs[..n])[i], i, parts[..n][i])
    {
      assert TrueAt(blobs, nextId, FromRecords(rs[..|rs|])[i], i, parts[..|rs|][i]);
    }
  }

  /** Every chunk listed, resumed or posted, is true. */
  lemma ListedTrue(run: Run, parts: seq<seq<Byte>>)
    requires run.Of(parts) && run.cfg.resumeFrom <= |Recorded(run.s0.rows, run.cfg.key)|
    requires RecordedTrue(run.cfg, run.s0.blobs, run.s0.nextId, run.s0.rows, parts, run.cfg.resumeFrom)
    ensures |run.last.chunks| <= |parts|
    ensures Truthful(run.last.blobs, run.last.nextId, run.last.chunks, parts[..|run.last.chunks|])
  {
    hide TrueAt, HoldsAt, FreshIds, NothingRewritten, AgreeBut, Keeps, Mine, Deletions, SameRow, Undone, Survives,
         Recorded;
    var cfg, start, last := run.cfg, Begin(run.cfg, run.s0), run.last;
    var j := cfg.resumeFrom;
    forall i | 0 <= i < |last.chunks|
      ensures TrueAt(last.blobs, last.nextId, last.chunks[i], i, parts[..|last.chunks|][i])
    {
      if i < j {
        assert last.chunks[i] == last.chunks[..j][i] == start.chunks[i];
        assert TrueAt(run.s0.blobs, run.s0.nextId, start.chunks[i], i, parts[..j][i]);
        StaysTrue(run.s0, last, last.chunks[i], i, parts[i]);
      } else {
        assert run.handed[i] == parts[i];
        HeldIsTrue(cfg, last, last.chunks[i], i, parts[i]);
      }
    }
  }

  /** A completed upload that resumed from true chunks has a true manifest, even if some of those chunks
    * were lost. */
  lemma StoredTrue(run: Run, parts: seq<seq<Byte>>)
    requires run.Of(parts) && run.r.Stored?
    requires var cfg, s0 := run.cfg, run.s0;
             cfg.resumeFrom <= |Recorded(s0.rows, cfg.key)| ==>
               RecordedTrue(cfg, s0.blobs, s0.nextId, s0.rows, parts, cfg.resumeFrom)
    ensures Truthful(run.s1.blobs, run.s1.nextId, run.s1.chunks, parts)
  {
    ListedTrue(run, parts);
    assert parts[..|parts|] == parts;
  }

  lemma RecordStaysTrue(cfg: Config, s: State, t: State, parts: seq<seq<Byte>>)
    requires TrueRecord(cfg, s.blobs, s.nextId, s.rows, parts)
    requires SameRow(cfg.key, s.rows, t.rows) && NothingRewritten(s.blobs, s.nextId, t.blobs, t.nextId)
    ensures TrueRecord(cfg, t.blobs, t.nextId, t.rows, parts)
  {
    hide TrueAt, NothingRewritten;
    var rs := Recorded(s.rows, cfg.key);
    forall i | 0 <= i < |rs|
      ensures TrueAt(t.blobs, t.nextId, FromRecords(rs[..|rs|])[i], i, parts[..|rs|][i])
    {
      StaysTrue(s, t, FromRecords(rs[..|rs|])[i], i, parts[i]);
    }
  }

  lemma CheckpointTrue(cfg: Config, t: State, parts: seq<seq<Byte>>)
    requires |t.chunks| <= |parts| && Truthful(t.blobs, t.nextId, t.chunks, parts[..|t.chunks|])
    requires cfg.key.Some? ==> cfg.key.value in t.rows && t.rows[cfg.key.value] == Envelope(ToRecords(t.chunks))
    ensures TrueRecord(cfg, t.blobs, t.nextId, t.rows, parts)
  {
    var rs := Recorded(t.rows, cfg.key);
    forall i | 0 <= i < |rs|
      ensures TrueAt(t.blobs, t.nextId, FromRecords(rs[..|rs|])[i], i, parts[..|rs|][i])
    {
      assert TrueAt(t.blobs, t.nextId, t.chunks[i], i, parts[..|t.chunks|][i]);
    }
  }

  /** However a run ends, its checkpoint never records a chunk that is not the content's: a later attempt
    * finds each recorded chunk right or, after a rollback, missing. */
  lemma RecordNeverWrong(run: Run, parts: seq<seq<Byte>>)
    requires run.Of(parts) && TrueRecord(run.cfg, run.s0.blobs, run.s0.nextId, run.s0.rows, parts)
    ensures TrueRecord(run.cfg, run.s1.blobs, run.s1.nextId, run.s1.rows, parts)
  {
    hide TrueAt, HoldsAt, FreshIds, NothingRewritten, AgreeBut, Keeps, Mine, Deletions, SameRow, Undone, Recorded,
         TrueRecord, RecordedTrue, Truthful;
    var cfg, s0, last := run.cfg, run.s0, run.last;
    if cfg.resumeFrom <= |Recorded(s0.rows, cfg.key)| {
      if |last.chunks| == cfg.resumeFrom {
        RecordStaysTrue(cfg, s0, last, parts);
      } else {
        TrueFewer(cfg, s0.blobs, s0.nextId, s0.rows, parts, cfg.resumeFrom);
        ListedTrue(run, parts);
        CheckpointTrue(cfg, last, parts);
      }
      RecordStaysTrue(cfg, last, run.s1, parts);
    }
  }

  /** Of the chunks a completed upload lists, exactly those are missing that it resumed from and that were
    * missing already; so its manifest holds the content if and only if what it resumed from did. */
  lemma StoredExactly(run: Run, parts: seq<seq<Byte>>)
    requires run.Of(parts) && run.r.Stored? && run.cfg.resumeFrom <= |Recorded(run.s0.rows, run.cfg.key)|
    requires RecordedTrue(run.cfg, run.s0.blobs, run.s0.nextId, run.s0.rows, parts, run.cfg.resumeFrom)
    ensures |run.s1.chunks| == |parts|
    ensures forall i :: 0 <= i < |parts| ==>
      (run.cfg.HandleOf(run.s1.chunks[i]) in run.s1.blobs <==>
       i >= run.cfg.resumeFrom || run.cfg.HandleOf(run.s1.chunks[i]) in run.s0.blobs)
    ensures Holds(run.cfg, run.s1.blobs, run.s1.chunks, parts) <==>
            RecordedHold(run.cfg, run.s0.blobs, run.s0.rows, parts, run.cfg.resumeFrom)
  {
    hide Run.Of, HoldsAt, Truthful, RecordedHold, Recorded, FromRecords;
    forall i | 0 <= i < |parts|
      ensures |run.s1.chunks| == |parts|
      ensures run.cfg.HandleOf(run.s1.chunks[i]) in run.s1.blobs <==>
              i >= run.cfg.resumeFrom || run.cfg.HandleOf(run.s1.chunks[i]) in run.s0.blobs
      ensures i < run.cfg.resumeFrom && HoldsAt(run.cfg, run.s1.blobs, run.s1.chunks[i], i, parts[i]) ==>
              HoldsAt(run.cfg, run.s0.blobs, Begin(run.cfg, run.s0).chunks[i], i, parts[i])
    {
      StoredAt(run, parts, i);
    }
    StoredCount(run, parts);
    if Holds(run.cfg, run.s1.blobs, run.s1.chunks, parts) {
      ResumedHold(run, parts);
    } else if RecordedHold(run.cfg, run.s0.blobs, run.s0.rows, parts, run.cfg.resumeFrom) {
      StoredUpload(run, parts);
    }
  }

  lemma StoredCount(run: Run, parts: seq<seq<Byte>>)
    requires run.Of(parts) && run.r.Stored? && run.cfg.resumeFrom <= |Recorded(run.s0.rows, run.cfg.key)|
    requires run.cfg.resumeFrom <= |parts|
    ensures |run.s1.chunks| == |parts|
  {
  }

  lemma ResumedHold(run: Run, parts: seq<seq<Byte>>)
    requires run.cfg.resumeFrom <= |Recorded(run.s0.rows, run.cfg.key)| && run.cfg.resumeFrom <= |parts|
    requires forall i :: 0 <= i < run.cfg.resumeFrom ==>
      HoldsAt(run.cfg, run.s0.blobs, Begin(run.cfg, run.s0).chunks[i], i, parts[i])
    ensures RecordedHold(run.cfg, run.s0.blobs, run.s0.rows, parts, run.cfg.resumeFrom)
  {
    hide HoldsAt;
  }

  /** One chunk of a completed upload. */
  lemma StoredAt(run: Run, parts: seq<seq<Byte>>, i: nat)
    requires run.Of(parts) && run.r.Stored? && run.cfg.resumeFrom <= |Recorded(run.s0.rows, run.cfg.key)|
    requires RecordedTrue(run.cfg, run.s0.blobs, run.s0.nextId, run.s0.rows, parts, run.cfg.resumeFrom) && i < |parts|
    ensures |run.s1.chunks| == |parts|
    ensures run.cfg.HandleOf(run.s1.chunks[i]) in run.s1.blobs <==>
            i >= run.cfg.resumeFrom || run.cfg.HandleOf(run.s1.chunks[i]) in run.s0.blobs
    ensures i < run.cfg.resumeFrom && HoldsAt(run.cfg, run.s1.blobs, run.s1.chunks[i], i, parts[i]) ==>
            HoldsAt(run.cfg, run.s0.blobs, Begin(run.cfg, run.s0).chunks[i], i, parts[i])
  {
    hide AgreeBut, Mine, SameRow, FreshIds, Recorded;
    var cfg, start, j := run.cfg, Begin(run.cfg, run.s0), run.cfg.resumeFrom;
    StoredCount(run, parts);
    var c := run.s1.chunks[i];
    if i < j {
      assert c == run.s1.chunks[..j][i] == start.chunks[i];
      assert TrueAt(run.s0.blobs, run.s0.nextId, start.chunks[i], i, parts[..j][i]);
      assert c in start.chunks;
      assert cfg.HandleOf(c) in Deletions(cfg, start.chunks);
    } else {
      assert HoldsAt(cfg, run.s1.blobs, c, i, run.handed[i]);
    }
  }

  /** An instance: the client of StalledAfterOneChunk tries again from the one chunk its checkpoint records.
    * The upload is stored, and its first chunk is missing. */
  lemma StoredWithoutItsFirstChunk(a: Byte, b: Byte) returns (first: Run, second: Run)
    ensures first.Of([[a], [b]]) && first.r == Failed(ClientStalled) && first.allDeleted
    ensures second.Of([[a], [b]]) && second.r == Stored([a, b]) && second.cfg == first.cfg.(resumeFrom := 1)
    ensures second.s0 == first.s1.(chunks := [])
    ensures !Holds(second.cfg, second.s1.blobs, second.s1.chunks, [[a], [b]])
    ensures |second.s1.chunks| == 2 && second.cfg.HandleOf(second.s1.chunks[0]) !in second.s1.blobs
  {
    hide NothingRewritten, Progress;
    first := StalledAfterOneChunk(a, b);
    var cfg, s0 := first.cfg.(resumeFrom := 1), first.s1.(chunks := []);
    var c, d := Chunk(0, 1, 0, Some(0), None, None), Chunk(1, 1, 1, Some(1), None, None);
    var last := State([c, d], map[(0, 1) := [b]], 2, map["k" := Envelope(ToRecords([c, d]))], map[], 2);
    second := Run(cfg, s0, [[a], [b]], Stored([a, b]), last, last, true);
    assert Recorded(s0.rows, cfg.key)[0] == ToRecord(c);
    assert Begin(cfg, s0).chunks == [c];
    SecondChunkPosted(cfg, Begin(cfg, s0), a, c, d, b, last);
    NothingYet(last.blobs, last.nextId);
    assert [[a], [b]] <= [[a], [b]];
    assert !HoldsAt(cfg, last.blobs, last.chunks[0], 0, [[a], [b]][0]);
  }

  lemma SecondChunkPosted(cfg: Config, s: State, a: Byte, c: Chunk, d: Chunk, b: Byte, t: State)
    requires cfg == Config([], 0, Some("k"), 1) && s.chunks == [c] && s.blobs == map[] == s.theirs && s.nextId == 1
    requires s.posts == 1 && c == Chunk(0, 1, 0, Some(0), None, None) && d == Chunk(1, 1, 1, Some(1), None, None)
    requires t == State([c, d], map[(0, 1) := [b]], 2, map["k" := Envelope(ToRecords([c, d]))], map[], 2)
    ensures Progress(cfg, s, [[a], [b]], t) && FreshIds(t) && NothingRewritten(s.blobs, s.nextId, t.blobs, t.nextId)
  {
    assert [c, d] == [c] + [d];
    DeletionsSplit(cfg, [c], [d]);
    DeletionsOne(cfg, d);
  }

  // ----- what a run does to the rest -----

  /** A blob that was there is still there, unless others have deleted it, or the run resumed from it and
    * then failed. */
  lemma RestStays(run: Run, parts: seq<seq<Byte>>, h: Handle)
    requires run.Of(parts) && h in run.s0.blobs && h.1 < run.s0.nextId && h in run.s1.theirs
    requires run.cfg.resumeFrom <= |Recorded(run.s0.rows, run.cfg.key)|
    requires h in Deletions(run.cfg, Begin(run.cfg, run.s0).chunks) ==> run.r.Stored? || run.r == Failed(Died)
    ensures h in run.s1.blobs
  {
    hide HoldsAt, SameRow, Recorded, FromRecords, Undone;
    var cfg, start, last := run.cfg, Begin(run.cfg, run.s0), run.last;
    assert start.chunks <= last.chunks;
    ListedIsMine(cfg, start, last);
    if h in Deletions(cfg, last.chunks) && h !in Deletions(cfg, start.chunks) {
      ListedSince(cfg, start, run.handed, last, h);
    }
  }

  /** lost grows only by blobs that others have deleted; every other blob is still there, except that a run
    * that fails may delete the chunks it had resumed from. */
  ghost predicate OnlyOthers(run: Run, before: set<Handle>, after: set<Handle>) {
    && before <= after
    && (forall h :: h in after && h !in before ==> h in run.s0.blobs && h !in run.s1.theirs)
    && forall h :: h in run.s0.blobs && h !in run.s1.blobs ==>
         h in after || (run.cfg.resumeFrom <= |Recorded(run.s0.rows, run.cfg.key)|
                        && h in Deletions(run.cfg, Begin(run.cfg, run.s0).chunks)
                        && run.r.Failed? && run.r != Failed(Died))
  }

  /** What a run has listed besides the chunks it resumed from is new. */
  lemma ListedSince(cfg: Config, start: State, handed: seq<seq<Byte>>, t: State, h: Handle)
    requires Progress(cfg, start, handed, t) && h in Deletions(cfg, t.chunks) && h !in Deletions(cfg, start.chunks)
    ensures h.1 >= start.nextId
  {
    hide AgreeBut, Keeps, Mine, SameRow;
    var j := cfg.resumeFrom;
    assert t.chunks == start.chunks + t.chunks[j..];
    DeletionsSplit(cfg, start.chunks, t.chunks[j..]);
    var c :| c in t.chunks[j..] && c.messageId.Some? && h == (cfg.HolderOf(c.backend), c.messageId.value);
    var i :| j <= i < |t.chunks| && t.chunks[i] == c;
    ChunkHandle(cfg, t.blobs, c, i, handed[i]);
  }

  /** The checkpoint records only chunks posted since then. */
  predicate RecordedSince(rows: map<string, Saved>, key: Option<string>, since: nat) {
    forall i :: 0 <= i < |Recorded(rows, key)| ==> since <= Recorded(rows, key)[i].f
  }

  /** A run that resumes from such chunks lists and records only such chunks. */
  lemma RunSince(run: Run, parts: seq<seq<Byte>>, since: nat)
    requires run.Of(parts) && since <= run.s0.nextId
    requires run.cfg.resumeFrom <= |Recorded(run.s0.rows, run.cfg.key)|
    requires run.cfg.resumeFrom > 0 ==> RecordedSince(run.s0.rows, run.cfg.key, since)
    ensures forall c :: c in run.s1.chunks ==> since <= c.fileId
    ensures RecordedSince(run.s0.rows, run.cfg.key, since) ==> RecordedSince(run.s1.rows, run.cfg.key, since)
  {
    hide AgreeBut, Keeps, Mine, Undone, Asked, Survives, NothingRewritten, FreshIds, Deletions, HoldsAt;
    var cfg, start, last := run.cfg, Begin(run.cfg, run.s0), run.last;
    forall i | 0 <= i < |last.chunks|
      ensures since <= last.chunks[i].fileId
    {
      if i < cfg.resumeFrom {
        assert last.chunks[i] == last.chunks[..cfg.resumeFrom][i] == start.chunks[i];
        assert start.chunks[i].fileId == Recorded(run.s0.rows, cfg.key)[i].f;
      }
    }
    assert cfg.key.Some? && |last.chunks| != cfg.resumeFrom ==> Recorded(last.rows, cfg.key) == ToRecords(last.chunks);
  }

  /** A killed run that resumed from all its checkpoint recorded has posted what it now records besides. */
  lemma KilledCount(run: Run, parts: seq<seq<Byte>>)
    requires run.Of(parts) && run.r == Failed(Died) && run.cfg.key.Some?
    requires run.cfg.resumeFrom == |Recorded(run.s0.rows, run.cfg.key)|
    ensures run.s1.posts - run.s0.posts == |Recorded(run.s1.rows, run.cfg.key)| - run.cfg.resumeFrom
  {
    hide AgreeBut, Keeps, Mine, NothingRewritten, FreshIds, Deletions, HoldsAt;
  }

  // ----- the committed row -----

  /** A committed upload: the manifest read back from the row describes exactly the content. */
  lemma CommittedManifest(blobs: map<Handle, seq<Byte>>, nextId: nat, chunks: seq<Chunk>, content: seq<Byte>, size: nat)
    requires size > 0 && Truthful(blobs, nextId, chunks, Chunks(content, size))
    ensures FromJson(ToJson(Manifest(chunks, SizeOf(chunks)))) == Manifest(chunks, |content|)
    ensures Fits(Chunks(content, size), chunks) && Concat(Chunks(content, size)) == content
  {
    var parts := Chunks(content, size);
    assert forall i :: 0 <= i < |chunks| ==> TrueAt(blobs, nextId, chunks[i], i, parts[i]);
    ChunksFit(content, size);
    ConcatSize(parts, chunks);
    JsonRoundTrip(Manifest(chunks, SizeOf(chunks)));
  }

  lemma EmptyConcat()
    ensures Concat([]) == []
  {
  }

  lemma NoChunks(size: nat)
    requires size > 0
    ensures Chunks([], size) == []
  {
  }

  // ----- the rotation -----

  /** Where the pool's round-robin stands: whether a flood was ever marked, how many picks other requests
    * have made, and the counter. */
  datatype Turn = Turn(flooded: bool, foreign: nat, cycle: nat)

  /** From a to b the run itself has picked own times. */
  predicate Moved(a: Turn, b: Turn, own: nat) {
    a.foreign <= b.foreign && (!b.flooded ==> !a.flooded && b.cycle == a.cycle + b.foreign - a.foreign + own)
  }

  lemma StillCalm(a: Turn, b: Turn, own: nat)
    ensures Moved(a, b, own) && !b.flooded ==> !a.flooded
  {
  }

  lemma MovedOn(a: Turn, b: Turn, c: Turn, m: nat, n: nat)
    requires Moved(a, b, m) && Moved(b, c, n)
    ensures Moved(a, c, m + n)
  {
  }

  /** Without floods and without picks of others, the posted chunks go round the pool, one by one. */
  ghost predicate TakingTurns(cfg: Config, a: Turn, b: Turn, chunks: seq<Chunk>) {
    && cfg.resumeFrom <= |chunks|
    && (cfg.Distributes() ==> Moved(a, b, |chunks| - cfg.resumeFrom))
    && (cfg.Distributes() && !b.flooded && b.foreign == a.foreign ==>
         forall i :: cfg.resumeFrom <= i < |chunks| ==>
           chunks[i].backend == Some(cfg.names[(a.cycle + i - cfg.resumeFrom) % |cfg.names|]))
  }

  lemma OthersTakeTurns(cfg: Config, a: Turn, b: Turn, c: Turn, chunks: seq<Chunk>)
    requires TakingTurns(cfg, a, b, chunks) && Moved(b, c, 0)
    ensures TakingTurns(cfg, a, c, chunks)
  {
  }

  lemma TurnsTaken(cfg: Config, a: Turn, b: Turn, chunks: seq<Chunk>)
    requires TakingTurns(cfg, a, b, chunks)
    ensures |cfg.names| > 1 && cfg.backend < |cfg.names| && !b.flooded && b.foreign == a.foreign ==>
      forall i :: cfg.resumeFrom <= i < |chunks| ==>
        chunks[i].backend == Some(cfg.names[(a.cycle + i - cfg.resumeFrom) % |cfg.names|])
  {
  }

  lemma OneMoreTurn(cfg: Config, a: Turn, b: Turn, c: Turn, chunks: seq<Chunk>, next: seq<Chunk>)
    requires TakingTurns(cfg, a, b, chunks) && |next| == |chunks| + 1 && next[..|chunks|] == chunks
    requires cfg.Distributes() ==> Moved(b, c, 1)
    requires cfg.Distributes() && !c.flooded ==>
      next[|chunks|].backend == Some(cfg.names[b.cycle % |cfg.names|])
    ensures TakingTurns(cfg, a, c, next)
  {
    forall i | cfg.resumeFrom <= i < |chunks|
      ensures next[i] == chunks[i]
    {
      assert next[i] == next[..|chunks|][i];
    }
  }

  // ----- the service -----

  /** The object row, as far as chunks are concerned. */
  datatype Row = Row(backend: string, fileId: nat, size: nat, hashed: seq<Byte>, manifest: JsonManifest)

  class ObjectService {
    const channel: Channel
    const kv: Kv
    const pool: BotPool
    const caller: Caller
    const cfg: Config
    const chunkSize: nat
    const maxBytes: Option<nat>
    var chunks: seq<Chunk>
    var skipRemaining: nat
    ghost var theirs: map<Handle, seq<Byte>>
    ghost var foreign: nat

    ghost predicate Valid()
      reads this, channel
    {
      && chunkSize > 0 && cfg.names == pool.names && cfg.WellNamed() && channel.Valid()
      && forall h :: h in theirs ==> h.1 < channel.nextId
    }

    ghost function Now(): State
      reads this, channel, kv, caller
    {
      State(chunks, channel.blobs, channel.nextId, kv.rows, theirs, caller.posts)
    }

    /** Where the rotation stands; foreign counts the picks of other requests. */
    ghost function Standing(): Turn
      reads this, pool
    {
      Turn(pool.floodUntil != map[], foreign, pool.cycle)
    }

    /** resume_from counts only with a checkpoint key. */
    constructor (channel: Channel, kv: Kv, pool: BotPool, caller: Caller, backend: nat, key: Option<string>,
                 resumeFrom: nat, chunkSize: nat, maxBytes: Option<nat>)
      requires chunkSize > 0 && Config(pool.names, backend, key, 0).WellNamed() && channel.Valid()
      ensures Valid() && chunks == [] && this.channel == channel && this.kv == kv && this.pool == pool
      ensures this.chunkSize == chunkSize && this.maxBytes == maxBytes && this.caller == caller
      ensures cfg == Config(pool.names, backend, key, if key.Some? then resumeFrom else 0)
      ensures skipRemaining == cfg.resumeFrom
    {
      this.channel, this.kv, this.pool := channel, kv, pool;
      this.chunkSize, this.maxBytes := chunkSize, maxBytes;
      this.caller := caller;
      cfg := Config(pool.names, backend, key, if key.Some? then resumeFrom else 0);
      skipRemaining := if key.Some? then resumeFrom else 0;
      chunks, theirs, foreign := [], map[], 0;
    }

    /** Each failure has its reason: the request body was too large, stalled after arrived, or broke off; or
      * the backend flooded (both sends, when distributing), refused or was killed during this upload. */
    ghost predicate Caused(why: Failure, ending: Ending, arrived: seq<Byte>, whole: seq<Byte>, handed: seq<seq<Byte>>,
                           before: Tally, after: Tally)
    {
      match why
      case TooLarge => maxBytes.Some? && |whole| > maxBytes.value
      case ClientStalled => ending == Stalled && (handed == [] <==> |arrived| < chunkSize)
      case Flooded => after.floods >= before.floods + if cfg.Distributes() then 2 else 1
      case RefusedByBackend => after.refusals > before.refusals
      case Died => ending == Ending.Killed || after.kills > before.kills
    }

    /** What other requests may do while this one awaits.  posted is a blob of this run that is not listed
      * yet. */
    method OthersRun(posted: set<Handle>)
      requires Valid() && AgreeBut(Deletions(cfg, chunks) + posted, Now())
      modifies this`theirs, this`foreign, channel`blobs, channel`nextId, kv, pool`floodUntil, pool`rr, pool`cycle
      ensures Valid()
      ensures OthersOnly(cfg, Mine(cfg, old(Now())) + posted, Deletions(cfg, chunks) + posted, old(Now()), Now())
      ensures forall i :: i in old(pool.floodUntil) ==> i in pool.floodUntil
      ensures Moved(old(Standing()), Standing(), 0)
    {
      hide Deletions, Recorded, FromRecords, Config.WellNamed, OthersOnly, AgreeBut, Channel.Valid, Mine, SameRow,
           Moved;
      ghost var s := Now();
      FreshChannel(channel);
      MineIs(cfg, s);
      var mine := Deletions(cfg, chunks) + Deletions(cfg, FromRecords(Recorded(kv.rows, cfg.key))) + posted;
      var gone: set<Handle>, member: nat, data: seq<Byte> := *, *, *;
      var h := (member, channel.nextId);
      channel.Disturb(gone - mine, member, data);
      theirs := (theirs - (gone - mine))[h := data];
      var key: string, row: Saved := *, *;
      OtherRow(cfg.key, kv.rows, key, row);
      if cfg.key != Some(key) {
        kv.rows := kv.rows[key := row];
      }
      OthersPick();
      OthersStep(cfg, mine, Deletions(cfg, chunks) + posted, s, gone, h, data, Now());
    }

    /** Other requests take members from the pool and mark floods. */
    method OthersPick()
      modifies this`foreign, pool`floodUntil, pool`rr, pool`cycle
      ensures forall i :: i in old(pool.floodUntil) ==> i in pool.floodUntil
      ensures Moved(old(Standing()), Standing(), 0)
    {
      var floods: bool, flooded: nat, until: nat := *, *, *;
      if floods {
        pool.floodUntil := pool.floodUntil[flooded := until];
      }
      var picks: int := *;
      if picks > 0 {
        pool.rr, pool.cycle := *, pool.cycle + picks;
        foreign := foreign + picks;
      }
    }

    /** _load_prior_chunks: None when the client resumes past the checkpoint. */
    method LoadPriorChunks() returns (prior: Option<seq<Record>>)
      ensures var rs := Recorded(kv.rows, cfg.key);
              if cfg.key == None || cfg.resumeFrom == 0 then prior == Some([])
              else if cfg.resumeFrom > |rs| then prior == None
              else prior == Some(rs[..cfg.resumeFrom])
    {
      if cfg.key == None || cfg.resumeFrom == 0 {
        return Some([]);
      }
      var rs := Recorded(kv.rows, cfg.key);
      prior := if cfg.resumeFrom > |rs| then None else Some(rs[..cfg.resumeFrom]);
    }

    method WriteCheckpoint()
      modifies kv
      ensures cfg.key == None ==> kv.rows == old(kv.rows)
      ensures cfg.key.Some? ==> kv.rows == old(kv.rows)[cfg.key.value := Envelope(ToRecords(chunks))]
    {
      if cfg.key.Some? {
        kv.rows := kv.rows[cfg.key.value := Envelope(ToRecords(chunks))];
      }
    }

    /** The flooded member, and no other, leaves the rotation for its penalty; then a healthy one is asked,
      * or else the primary. */
    method PickAfterFlood(flooded: nat) returns (target: nat, ghost clock: nat)
      requires Valid() && cfg.Distributes() && flooded < |cfg.names|
      modifies pool`floodUntil, pool`rr, pool`cycle
      ensures pool.floodUntil == old(pool.floodUntil)[flooded := clock + 60]
      ensures target < |cfg.names| && Moved(old(Standing()), Standing(), 0)
      ensures var healthy := Healthy(|cfg.names|, pool.floodUntil, clock);
              if healthy != [] then target in healthy && target != flooded else target == 0
    {
      hide Healthy;
      var now: nat := *;
      clock := now;
      JustFlooded(pool.names, flooded, pool.floodUntil, now);
      pool.MarkFlood(cfg.names[flooded], now);
      assert flooded in pool.floodUntil;
      var next := pool.Next(now);
      target := next.value;
    }

    /** The member that is asked first. */
    method FirstTarget() returns (target: nat, ghost clock: nat)
      requires Valid()
      modifies pool`rr, pool`cycle
      ensures if cfg.Distributes() then target < |cfg.names| else target == cfg.backend
      ensures cfg.Distributes() ==>
        var healthy := Healthy(|cfg.names|, pool.floodUntil, clock);
        target == if pool.floodUntil == map[] then old(pool.cycle) % |cfg.names|
                  else if healthy != [] then healthy[old(pool.rr) % |healthy|] else 0
      ensures cfg.Distributes() ==> Moved(old(Standing()), Standing(), 1)
    {
      target, clock := cfg.backend, 0;
      if cfg.Distributes() {
        var now: nat := *;
        clock := now;
        var next := pool.Next(now);
        target := next.value;
      }
    }

    /** One post, to the next pool member when the pool has several and owns the backend, with one retry
      * elsewhere after a flood; else to the backend.  asked are the members tried, the first at clock. */
    method Post(data: seq<Byte>) returns (r: SendResult, target: nat, ghost asked: seq<nat>, ghost clock: nat)
      requires Valid() && AgreeBut(Deletions(cfg, chunks), Now())
      modifies this`theirs, this`foreign, channel`blobs, channel`nextId, kv, pool`floodUntil, pool`rr, pool`cycle
      modifies caller`posts, caller`floods, caller`refusals, caller`kills
      ensures Valid()
      ensures 1 <= |asked| <= 2 && asked[|asked| - 1] == target
      ensures if |cfg.names| > 1 && cfg.backend < |cfg.names|
        then asked[0] < |cfg.names| && target < |cfg.names| else asked == [cfg.backend]
      ensures |cfg.names| > 1 && cfg.backend < |cfg.names| ==>
        var healthy := Healthy(|cfg.names|, old(pool.floodUntil), clock);
        asked[0] == if old(pool.floodUntil) == map[] then old(pool.cycle) % |cfg.names|
                    else if healthy != [] then healthy[old(pool.rr) % |healthy|] else 0
      ensures |cfg.names| > 1 && cfg.backend < |cfg.names| ==> Moved(old(Standing()), Standing(), 1)
      ensures |asked| == 2 ==> asked[0] in pool.floodUntil && (asked[1] != asked[0] || asked[1] == 0)
      ensures caller.floods == old(caller.floods) + |asked| - 1 + if r.FloodBudgetExceeded? then 1 else 0
      ensures r.FloodBudgetExceeded? ==> |asked| == if |cfg.names| > 1 && cfg.backend < |cfg.names| then 2 else 1
      ensures caller.refusals == old(caller.refusals) + if r.Refused? then 1 else 0
      ensures caller.kills == old(caller.kills) + if r.Killed? then 1 else 0
      ensures r.Sent? ==> Arrived(cfg, old(Now()), (target, r.id), data, Now())
      ensures r.FloodBudgetExceeded? || r.Refused? ==>
        OthersOnly(cfg, Mine(cfg, old(Now())), Deletions(cfg, chunks), old(Now()), Now())
      ensures r.Killed? ==> Survives(cfg, old(Now()), Now())
    {
      hide Healthy, Config.WellNamed, AgreeBut, Mine, Deletions, Moved, Arrived, OthersOnly, Survives;
      ghost var standing := Standing();
      target, clock := FirstTarget();
      asked := [target];
      ghost var picked := Standing();
      r := SendTo(target, data);
      if cfg.Distributes() {
        MovedOn(standing, picked, Standing(), 1, 0);
      }
      if r.FloodBudgetExceeded? && cfg.Distributes() {
        ghost var before, sent := Now(), Standing();
        AgreesSince(cfg, old(Now()), before);
        r, target := PostElsewhere(target, data);
        asked := asked + [target];
        MovedOn(standing, sent, Standing(), 1, 0);
        SentLater(cfg, old(Now()), before, Now(), (target, if r.Sent? then r.id else 0), data);
      }
    }

    /** The retry after a flood. */
    method PostElsewhere(flooded: nat, data: seq<Byte>) returns (r: SendResult, target: nat)
      requires Valid() && AgreeBut(Deletions(cfg, chunks), Now()) && cfg.Distributes() && flooded < |cfg.names|
      modifies this`theirs, this`foreign, channel`blobs, channel`nextId, kv, pool`floodUntil, pool`rr, pool`cycle
      modifies caller`posts, caller`floods, caller`refusals, caller`kills
      ensures Valid() && Moved(old(Standing()), Standing(), 0)
      ensures target < |cfg.names| && flooded in pool.floodUntil && (target != flooded || target == 0)
      ensures caller.floods == old(caller.floods) + if r.FloodBudgetExceeded? then 1 else 0
      ensures caller.refusals == old(caller.refusals) + if r.Refused? then 1 else 0
      ensures caller.kills == old(caller.kills) + if r.Killed? then 1 else 0
      ensures r.Sent? ==> Arrived(cfg, old(Now()), (target, r.id), data, Now())
      ensures r.FloodBudgetExceeded? || r.Refused? ==>
        OthersOnly(cfg, Mine(cfg, old(Now())), Deletions(cfg, chunks), old(Now()), Now())
      ensures r.Killed? ==> Survives(cfg, old(Now()), Now())
    {
      hide Healthy, Config.WellNamed, AgreeBut, OthersOnly, Arrived, Survives, Mine, Deletions, Moved;
      ghost var standing, clock := Standing(), 0;
      target, clock := PickAfterFlood(flooded);
      ghost var picked := Standing();
      r := SendTo(target, data);
      MovedOn(standing, picked, Standing(), 0, 0);
    }

    /** One send; others run while it is under way, and while a bot looks for its own handle afterwards. */
    method SendTo(target: nat, data: seq<Byte>) returns (r: SendResult)
      requires Valid() && AgreeBut(Deletions(cfg, chunks), Now())
      modifies this`theirs, this`foreign, channel`blobs, channel`nextId, kv, pool`floodUntil, pool`rr, pool`cycle
      modifies caller`posts, caller`floods, caller`refusals, caller`kills
      ensures Valid() && forall i :: i in old(pool.floodUntil) ==> i in pool.floodUntil
      ensures Moved(old(Standing()), Standing(), 0)
      ensures caller.floods == old(caller.floods) + if r.FloodBudgetExceeded? then 1 else 0
      ensures caller.refusals == old(caller.refusals) + if r.Refused? then 1 else 0
      ensures caller.kills == old(caller.kills) + if r.Killed? then 1 else 0
      ensures r.Sent? ==> Arrived(cfg, old(Now()), (target, r.id), data, Now())
      ensures r.FloodBudgetExceeded? || r.Refused? ==>
        OthersOnly(cfg, Mine(cfg, old(Now())), Deletions(cfg, chunks), old(Now()), Now())
      ensures r.Killed? ==> Survives(cfg, old(Now()), Now())
    {
      hide Config.WellNamed, StayApart, Mine, Deletions, SameRow, OthersOnly, AgreeBut, Arrived, Survives, Keeps, Moved,
           Channel.Valid, FreshIds;
      ghost var s, standing := Now(), Standing();
      assert Deletions(cfg, chunks) + {} == Deletions(cfg, chunks) && Mine(cfg, s) + {} == Mine(cfg, s);
      OthersRun({});
      ghost var t, stood := Now(), Standing();
      AgreesSince(cfg, s, t);
      AllFresh(t);
      r := channel.Store(caller, target, data);
      assert Standing() == stood;
      if r.Sent? {
        ghost var u := Now();
        NotTheirs(cfg, t, (target, r.id), data, u);
        OthersRun({(target, r.id)});
        MovedOn(standing, stood, Standing(), 0, 0);
        ArrivedAmongOthers(cfg, s, t, (target, r.id), data, u, Now());
      } else if r.Killed? {
        KilledWhileSending(cfg, s, t, Now(), (target, t.nextId), data);
      }
    }

    /** on_chunk: drains a chunk already stored, or posts one, lists it and checkpoints. */
    method OnChunk(data: seq<Byte>) returns (r: Option<Failure>)
      requires Valid() && AgreeBut(Deletions(cfg, chunks), Now())
      modifies this, channel`blobs, channel`nextId, kv, pool`floodUntil, pool`rr, pool`cycle
      modifies caller`posts, caller`floods, caller`refusals, caller`kills
      ensures Valid()
      ensures skipRemaining == if old(skipRemaining) > 0 then old(skipRemaining) - 1 else 0
      ensures old(skipRemaining) > 0 ==> r == None && Now() == old(Now())
      ensures old(skipRemaining) == 0 && r == None ==> Posted(cfg, old(Now()), data, Now())
      ensures r.Some? ==> r.value in {Flooded, RefusedByBackend, Died}
      ensures r.Some? && r != Some(Died) ==>
        OthersOnly(cfg, Mine(cfg, old(Now())), Deletions(cfg, old(chunks)), old(Now()), Now())
      ensures r == Some(Died) ==> Survives(cfg, old(Now()), Now())
      ensures old(caller.floods) <= caller.floods && old(caller.refusals) <= caller.refusals
      ensures caller.kills == old(caller.kills) + if r == Some(Died) then 1 else 0
      ensures old(skipRemaining) > 0 ==> Standing() == old(Standing())
      ensures old(skipRemaining) == 0 && r == None ==>
        var name := chunks[|chunks| - 1].backend;
        if |cfg.names| > 1 && cfg.backend < |cfg.names| then name.Some? && name.value in cfg.names else name == None
      ensures old(skipRemaining) == 0 && |cfg.names| > 1 && cfg.backend < |cfg.names| ==>
        Moved(old(Standing()), Standing(), 1)
      ensures old(skipRemaining) == 0 && r == None && |cfg.names| > 1 && cfg.backend < |cfg.names| &&
              pool.floodUntil == map[] ==>
        chunks[|chunks| - 1].backend == Some(cfg.names[old(pool.cycle) % |cfg.names|])
      ensures r == Some(RefusedByBackend) ==> caller.refusals > old(caller.refusals)
      ensures r == Some(Flooded) ==>
        caller.floods == old(caller.floods) + if |cfg.names| > 1 && cfg.backend < |cfg.names| then 2 else 1
    {
      hide AgreeBut, StayApart, Keeps, Mine, Deletions, NothingRewritten, SameRow, Arrived, Posted, OthersOnly,
           Survives, ToRecords, HoldsAt, Moved, Healthy;
      if skipRemaining > 0 {
        skipRemaining := skipRemaining - 1;
        return None;
      }
      ghost var s := Now();
      var sent, target;
      ghost var asked, clock;
      ghost var standing := Standing();
      sent, target, asked, clock := Post(data);
      StillCalm(standing, Standing(), 1);
      match sent
      case FloodBudgetExceeded => SameChunksSince(cfg, s, Now()); return Some(Flooded);
      case Refused => SameChunksSince(cfg, s, Now()); return Some(RefusedByBackend);
      case Killed => return Some(Died);
      case Sent(id) =>
        ghost var t := Now();
        SameChunksArrived(cfg, s, (target, id), data, t);
        var c := NewChunk(data, target, id);
        chunks := chunks + [c];
        WriteCheckpoint();
        ArrivedIsPosted(cfg, s, c, data, t, Now());
        r := None;
    }

    /** What one turn of chunk_stream takes from the bytes to come: a chunk, or the last one, or nothing;
      * the ceiling counts total bytes taken before. */
    ghost predicate OneChunk(total: nat, all: seq<Byte>, ending: Ending, buf: seq<Byte>, failure: Option<Failure>,
                             left: seq<Byte>)
    {
      var n := Min(chunkSize, |all|);
      if n < chunkSize && ending != Complete then failure == Some(if ending == Stalled then ClientStalled else Died)
      else if n > 0 && maxBytes.Some? && total + n > maxBytes.value then failure == Some(TooLarge)
      else failure == None && buf == all[..n] && left == all[n..]
    }

    /** What the manifest says of a chunk posted to target; a bot may have found its own handle for it. */
    method NewChunk(data: seq<Byte>, target: nat, id: nat) returns (c: Chunk)
      requires Valid() && if cfg.Distributes() then target < |cfg.names| else target == cfg.backend
      ensures c.index == |chunks| && c.size == |data| && c.fileId == id && c.messageId == Some(id)
      ensures cfg.Names(c) && c.backend != Some("")
      ensures c.backend.Some? ==> c.backend == Some(cfg.names[target])
      ensures c.botFileId == None || c.botFileId == Some(id)
      ensures cfg.HandleOf(c) == (target, id)
    {
      hide Channel.Valid;
      var name := if cfg.Distributes() then Some(cfg.names[target]) else None;
      ByNameFindsMember(cfg.names);
      var harvested: bool := *;
      c := Chunk(|chunks|, |data|, id, Some(id), if harvested then Some(id) else None, name);
    }

    /** The inner loop of chunk_stream: one chunk, checking the ceiling at every piece. */
    method ReadChunk(reader: BodyReader, total: nat) returns (buf: seq<Byte>, failure: Option<Failure>)
      requires Valid() && reader.Valid()
      modifies reader
      ensures reader.Valid() && reader.Ending() == old(reader.Ending())
      ensures OneChunk(total, old(reader.Content()), reader.Ending(), buf, failure, reader.Content())
    {
      buf := [];
      failure := None;
      ghost var all := reader.Content();
      while |buf| < chunkSize
        invariant reader.Valid() && reader.Ending() == old(reader.Ending()) && |buf| <= chunkSize
        invariant all == buf + reader.Content()
        invariant 0 < |buf| < chunkSize ==> reader.Content() == [] && reader.Ending() == Complete
        invariant |buf| > 0 && maxBytes.Some? ==> total + |buf| <= maxBytes.value
        decreases chunkSize - |buf|
      {
        var piece := reader.Read(chunkSize - |buf|);
        match piece
        case Broken(why) => return buf, Some(if why == Stalled then ClientStalled else Died);
        case Got(bytes) =>
          if bytes == [] {
            break;
          }
          buf := buf + bytes;
          if maxBytes.Some? && total + |buf| > maxBytes.value {
            return buf, Some(TooLarge);
          }
      }
      assert all[..|buf|] == buf;
    }

    /** rollback: asks for every listed blob to be deleted from the member that holds it. */
    method Rollback()
      requires Valid() && AgreeBut(Deletions(cfg, chunks), Now())
      modifies this`theirs, this`foreign, channel`blobs, channel`nextId, kv, pool`floodUntil, pool`rr, pool`cycle
      modifies caller`keptByError
      ensures Valid() && caller.keptByError >= old(caller.keptByError)
      ensures SameRow(cfg.key, old(kv.rows), kv.rows)
      ensures NothingRewritten(old(channel.blobs), old(channel.nextId), channel.blobs, channel.nextId)
      ensures Keeps(Mine(cfg, old(Now())) - Deletions(cfg, chunks), old(channel.blobs), channel.blobs)
      ensures Asked(cfg, old(Now()), Now())
      ensures caller.keptByError == old(caller.keptByError) ==> Undone(cfg, old(Now()), Now())
    {
      hide Mine, Deletions, Config.WellNamed, Undoing, Undone, Asked, AgreeBut;
      ghost var s := Now();
      UndoingStarts(cfg, s);
      for i := 0 to |chunks|
        invariant Valid() && caller.keptByError >= old(caller.keptByError)
        invariant Undoing(cfg, s, Now(), Deletions(cfg, chunks[..i]), caller.keptByError == old(caller.keptByError))
      {
        DeleteOne(i, s, old(caller.keptByError));
      }
      UndoingEnds(cfg, s, Now(), chunks, caller.keptByError == old(caller.keptByError));
    }

    /** Others run, then one chunk's blob is asked to go. */
    method DeleteOne(i: nat, ghost s: State, ghost kept: nat)
      requires Valid() && i < |chunks| && kept <= caller.keptByError && FreshIds(s)
      requires Undoing(cfg, s, Now(), Deletions(cfg, chunks[..i]), caller.keptByError == kept)
      modifies this`theirs, this`foreign, channel`blobs, channel`nextId, kv, pool`floodUntil, pool`rr, pool`cycle
      modifies caller`keptByError
      ensures Valid() && kept <= caller.keptByError
      ensures Undoing(cfg, s, Now(), Deletions(cfg, chunks[..i + 1]), caller.keptByError == kept)
    {
      hide Mine, Deletions, Config.WellNamed, Undoing, AgreeBut, SameRow, NothingRewritten, StayApart, OthersOnly,
           Keeps;
      ghost var t, before := Now(), caller.keptByError;
      UndoingAgrees(cfg, s, t, Deletions(cfg, chunks[..i]), before == kept);
      assert Deletions(cfg, chunks) + {} == Deletions(cfg, chunks) && Mine(cfg, t) + {} == Mine(cfg, t);
      OthersRun({});
      UndoingOthers(cfg, s, t, Now(), Deletions(cfg, chunks[..i]), before == kept);
      ghost var u := Now();
      var c := chunks[i];
      channel.Delete(caller, cfg.HolderOf(c.backend), c.messageId);
      PrefixDeletions(cfg, chunks, i, c);
      UndoingDelete(cfg, s, u, Now(), Deletions(cfg, chunks[..i]), Deletions(cfg, [c]), before == kept,
                    caller.keptByError == kept);
    }

    /** chunk_stream: hands the stream's chunks to on_chunk, hashing what was handed over, until the end
      * or a failure; others run while it waits for the client.  The ceiling is checked before a chunk is
      * handed over. */
    method ChunkStream(reader: BodyReader, ghost start: State, ghost whole: seq<Byte>)
      returns (hashed: seq<Byte>, failure: Option<Failure>, ghost handed: seq<seq<Byte>>, ghost last: State)
      requires Valid() && reader.Valid() && skipRemaining == cfg.resumeFrom
      requires Now() == start && Progress(cfg, start, [], start)
      requires reader.Content() <= whole && (reader.Ending() == Complete ==> reader.Content() == whole)
      modifies this, reader, channel`blobs, channel`nextId, kv, pool`floodUntil, pool`rr, pool`cycle
      modifies caller`posts, caller`floods, caller`refusals, caller`kills
      ensures Valid() && reader.Ending() == old(reader.Ending())
      ensures Progress(cfg, start, handed, last) && FreshIds(last) && handed <= Chunks(whole, chunkSize)
      ensures failure == None ==> TakingTurns(cfg, old(Standing()), Standing(), chunks)
      ensures NothingRewritten(start.blobs, start.nextId, last.blobs, last.nextId)
      ensures NothingRewritten(last.blobs, last.nextId, channel.blobs, channel.nextId)
      ensures failure == None ==> reader.Ending() == Complete && hashed == whole
      ensures failure == None ==> handed == Chunks(whole, chunkSize) && Now() == last
      ensures failure == Some(Died) ==> Survives(cfg, last, Now())
      ensures failure.Some? && failure != Some(Died) ==> Now() == last
      ensures maxBytes.Some? ==> |Concat(handed)| <= maxBytes.value
      ensures NoFewer(old(caller.Counts()), caller.Counts())
      ensures failure == None && maxBytes.Some? ==> |whole| <= maxBytes.value
      ensures failure.Some? ==>
        Caused(failure.value, reader.Ending(), old(reader.Content()), whole, handed, old(caller.Counts()),
            caller.Counts())
    {
      hide Progress, Posted, Chunks, Concat, TakingTurns, Moved, Config.WellNamed, Deletions, Mine, AgreeBut, Survives,
           OthersOnly, NothingRewritten, StayApart, Keeps, FreshIds, Caused, HoldsAt, SameRow, Channel.Valid, OneChunk,
           Reading;
      hashed, failure, handed := [], None, [];
      ghost var rest, arrived, before, turn := whole, reader.Content(), caller.Counts(), Standing();
      NoTurnYet(cfg, start, turn);
      ReadingStarts(whole, arrived, reader.Ending());
      NothingYet(start.blobs, start.nextId);
      while true
        invariant Valid() && reader.Valid() && failure == None && reader.Ending() == old(reader.Ending())
        invariant Progress(cfg, start, handed, Now())
        invariant TakingTurns(cfg, turn, Standing(), chunks)
        invariant NothingRewritten(start.blobs, start.nextId, channel.blobs, channel.nextId)
        invariant skipRemaining == if |handed| < cfg.resumeFrom then cfg.resumeFrom - |handed| else 0
        invariant Reading(whole, hashed, handed, rest, arrived, reader.Content(), reader.Ending())
        invariant caller.floods >= before.floods && caller.refusals >= before.refusals && caller.kills == before.kills
        decreases |rest|
      {
        ghost var all, standing := reader.Content(), Standing();
        var buf;
        buf, failure := NextChunk(reader, |hashed|, start, handed);
        OthersTakeTurns(cfg, turn, standing, Standing(), chunks);
        last := Now();
        NothingYet(last.blobs, last.nextId);
        if failure.Some? {
          SurvivesItself(cfg, start, handed, last);
          ReadingFails(whole, hashed, handed, rest, arrived, all, reader.Ending(), buf, failure.value, reader.Content(),
                       before, caller.Counts());
          return;
        }
        if buf == [] {
          ReadingEnds(whole, hashed, handed, rest, arrived, all, reader.Ending(), reader.Content());
          return;
        }
        ghost var later := ReadingGoesOn(whole, hashed, handed, rest, arrived, all, reader.Ending(), buf,
            reader.Content());
        failure, last := TakeChunk(start, turn, handed, buf);
        if failure.Some? {
          ReadingBounded(whole, hashed, handed, rest, arrived, all, reader.Ending());
          CausedBySend(failure.value, reader.Ending(), arrived, whole, handed, before, caller.Counts());
          return;
        }
        rest := later;
        handed := handed + [buf];
        hashed := hashed + buf;
      }
    }

    // ----- the chunker on values -----

    /** The loop of chunk_stream: what was handed over and what is to come are the content, of which arrived
      * reached the server; the rest of that is all, still to be read. */
    ghost predicate Reading(whole: seq<Byte>, hashed: seq<Byte>, handed: seq<seq<Byte>>, rest: seq<Byte>,
                            arrived: seq<Byte>, all: seq<Byte>, ending: Ending)
    {
      && chunkSize > 0 && Cut(whole, chunkSize, hashed, handed, rest)
      && (maxBytes.Some? ==> |hashed| <= maxBytes.value)
      && all <= rest && (ending == Complete ==> all == rest)
      && (handed == [] ==> all == arrived) && (handed != [] && ending != Complete ==> |arrived| >= chunkSize)
    }

    lemma ReadingStarts(whole: seq<Byte>, arrived: seq<Byte>, ending: Ending)
      requires chunkSize > 0 && arrived <= whole && (ending == Complete ==> arrived == whole)
      ensures Reading(whole, [], [], whole, arrived, arrived, ending)
    {
      CutStarts(whole, chunkSize);
    }

    lemma ReadingBounded(whole: seq<Byte>, hashed: seq<Byte>, handed: seq<seq<Byte>>, rest: seq<Byte>,
                         arrived: seq<Byte>, all: seq<Byte>, ending: Ending)
      requires Reading(whole, hashed, handed, rest, arrived, all, ending)
      ensures chunkSize > 0 && handed <= Chunks(whole, chunkSize)
      ensures maxBytes.Some? ==> |Concat(handed)| <= maxBytes.value
    {
    }

    lemma ReadingFails(whole: seq<Byte>, hashed: seq<Byte>, handed: seq<seq<Byte>>, rest: seq<Byte>, arrived: seq<Byte>,
                       all: seq<Byte>, ending: Ending, buf: seq<Byte>, why: Failure, left: seq<Byte>, before: Tally,
                       after: Tally)
      requires Reading(whole, hashed, handed, rest, arrived, all, ending)
      requires OneChunk(|hashed|, all, ending, buf, Some(why), left)
      ensures chunkSize > 0 && handed <= Chunks(whole, chunkSize)
      ensures maxBytes.Some? ==> |Concat(handed)| <= maxBytes.value
      ensures why in {TooLarge, ClientStalled, Died} && Caused(why, ending, arrived, whole, handed, before, after)
    {
      hide Cut, Chunks, Concat;
    }

    lemma ReadingEnds(whole: seq<Byte>, hashed: seq<Byte>, handed: seq<seq<Byte>>, rest: seq<Byte>, arrived: seq<Byte>,
                      all: seq<Byte>, ending: Ending, left: seq<Byte>)
      requires Reading(whole, hashed, handed, rest, arrived, all, ending)
      requires OneChunk(|hashed|, all, ending, [], None, left)
      ensures chunkSize > 0 && handed == Chunks(whole, chunkSize) && hashed == whole && ending == Complete
      ensures maxBytes.Some? ==> |Concat(handed)| <= maxBytes.value && |whole| <= maxBytes.value
    {
      hide Cut, Chunks, Concat;
      CutEnds(whole, chunkSize, hashed, handed);
    }

    lemma ReadingGoesOn(whole: seq<Byte>, hashed: seq<Byte>, handed: seq<seq<Byte>>, rest: seq<Byte>,
                        arrived: seq<Byte>, all: seq<Byte>, ending: Ending, buf: seq<Byte>, left: seq<Byte>)
      returns (later: seq<Byte>)
      requires Reading(whole, hashed, handed, rest, arrived, all, ending)
      requires buf != [] && OneChunk(|hashed|, all, ending, buf, None, left)
      ensures Reading(whole, hashed + buf, handed + [buf], later, arrived, left, ending) && |later| < |rest|
    {
      hide Cut, Chunks, Concat;
      later := Advance(whole, chunkSize, hashed, handed, rest, all, ending == Complete, buf);
    }

    /** Others run while the reader waits for the client. */
    method NextChunk(reader: BodyReader, total: nat, ghost start: State, ghost handed: seq<seq<Byte>>)
      returns (buf: seq<Byte>, failure: Option<Failure>)
      requires Valid() && reader.Valid() && Progress(cfg, start, handed, Now())
      requires NothingRewritten(start.blobs, start.nextId, channel.blobs, channel.nextId)
      modifies this`theirs, this`foreign, reader, channel`blobs, channel`nextId, kv
      modifies pool`floodUntil, pool`rr, pool`cycle
      ensures Valid() && Progress(cfg, start, handed, Now()) && FreshIds(Now())
      ensures chunks == old(chunks) && Moved(old(Standing()), Standing(), 0)
      ensures NothingRewritten(start.blobs, start.nextId, channel.blobs, channel.nextId)
      ensures reader.Valid() && reader.Ending() == old(reader.Ending())
      ensures OneChunk(total, old(reader.Content()), reader.Ending(), buf, failure, reader.Content())
    {
      hide Progress, Deletions, Mine, AgreeBut, StayApart, Keeps, Config.WellNamed, OneChunk, FreshIds, OthersOnly;
      ghost var s := Now();
      ProgressAgrees(cfg, start, handed, s);
      assert Deletions(cfg, chunks) + {} == Deletions(cfg, chunks) && Mine(cfg, s) + {} == Mine(cfg, s);
      AllFresh(s);
      OthersRun({});
      ProgressOthers(cfg, start, handed, s, Now());
      NotRewrittenByOthers(cfg, start, s, Now());
      AllFresh(Now());
      buf, failure := ReadChunk(reader, total);
    }

    lemma AllFresh(s: State)
      requires Valid() && s == Now()
      ensures FreshIds(s)
    {
    }

    /** One chunk handed to on_chunk; last is the state to roll back from. */
    method TakeChunk(ghost start: State, ghost turn: Turn, ghost handed: seq<seq<Byte>>, data: seq<Byte>)
      returns (failure: Option<Failure>, ghost last: State)
      requires Valid() && Progress(cfg, start, handed, Now())
      requires NothingRewritten(start.blobs, start.nextId, channel.blobs, channel.nextId)
      requires skipRemaining == if |handed| < cfg.resumeFrom then cfg.resumeFrom - |handed| else 0
      modifies this, channel`blobs, channel`nextId, kv, pool`floodUntil, pool`rr, pool`cycle
      modifies caller`posts, caller`floods, caller`refusals, caller`kills
      ensures Valid() && skipRemaining == if old(skipRemaining) > 0 then old(skipRemaining) - 1 else 0
      ensures failure == None && TakingTurns(cfg, turn, old(Standing()), old(chunks)) ==>
        TakingTurns(cfg, turn, Standing(), chunks)
      ensures NothingRewritten(start.blobs, start.nextId, channel.blobs, channel.nextId)
      ensures failure == None ==> Progress(cfg, start, handed + [data], Now())
      ensures failure.Some? ==> failure.value in {Flooded, RefusedByBackend, Died}
      ensures failure.Some? ==> Progress(cfg, start, handed, last) && FreshIds(last)
      ensures failure.Some? ==> NothingRewritten(start.blobs, start.nextId, last.blobs, last.nextId)
      ensures failure.Some? ==> NothingRewritten(last.blobs, last.nextId, channel.blobs, channel.nextId)
      ensures failure.Some? && failure != Some(Died) ==> Now() == last
      ensures failure == Some(Died) ==> Survives(cfg, last, Now())
      ensures old(caller.floods) <= caller.floods && old(caller.refusals) <= caller.refusals
      ensures caller.kills == old(caller.kills) + if failure == Some(Died) then 1 else 0
      ensures failure == Some(RefusedByBackend) ==> caller.refusals > old(caller.refusals)
      ensures failure == Some(Flooded) ==> caller.floods == old(caller.floods) + if cfg.Distributes() then 2 else 1
    {
      hide Progress, Deletions, Mine, AgreeBut, StayApart, Keeps, Config.WellNamed, TakingTurns, Moved, HoldsAt,
           ToRecords, FreshIds, NothingRewritten, OthersOnly, Posted, Survives, SameRow;
      ghost var s := Now();
      ProgressAgrees(cfg, start, handed, s);
      AllFresh(s);
      last := s;
      ghost var standing := Standing();
      failure := OnChunk(data);
      if failure == None {
        if |handed| < cfg.resumeFrom {
          ProgressSkips(cfg, start, handed, s, data);
        } else {
          if TakingTurns(cfg, turn, standing, s.chunks) {
            PostedChunks(cfg, s, data, Now());
            OneMoreTurn(cfg, turn, standing, Standing(), s.chunks, chunks);
          }
          ProgressPosts(cfg, start, handed, s, data, Now());
          NotRewrittenByPost(cfg, start, s, data, Now());
        }
      } else if failure != Some(Died) {
        ProgressOthers(cfg, start, handed, s, Now());
        NotRewrittenByOthers(cfg, start, s, Now());
        last := Now();
        AllFresh(last);
        NothingYet(last.blobs, last.nextId);
      } else {
        NothingYet(s.blobs, s.nextId);
        NotRewrittenByDeath(cfg, start, s, Now());
        NotRewrittenByDeath(cfg, s, s, Now());
      }
    }

    /** store_stream: what was stored, what a failure leaves behind, and why it failed.  whole is the
      * content the client means to send; a broken request delivers a prefix of it. */
    method StoreStream(reader: BodyReader, ghost whole: seq<Byte>) returns (r: Outcome, ghost run: Run)
      requires Valid() && reader.Valid() && chunks == [] && skipRemaining == cfg.resumeFrom
      requires cfg.key == None ==> cfg.resumeFrom == 0
      requires reader.Content() <= whole && (reader.Ending() == Complete ==> reader.Content() == whole)
      modifies this, reader, channel, kv, pool`floodUntil, pool`rr, pool`cycle, caller
      ensures Valid() && run.Of(Chunks(whole, chunkSize))
      ensures run.cfg == cfg && run.r == r && run.s1 == Now()
      ensures run.s0 == old(Now()).(theirs := old(channel.blobs))
      ensures run.allDeleted <==> caller.keptByError == old(caller.keptByError)
      ensures NoFewer(old(caller.Counts()), caller.Counts())
      ensures NothingRewritten(old(channel.blobs), old(channel.nextId), channel.blobs, channel.nextId)
      ensures OnlyOthers(run, old(channel.lost), channel.lost)
      ensures reader.Ending() == old(reader.Ending())
      ensures r.Stored? ==> reader.Ending() == Complete && r.hashed == whole
      ensures maxBytes.Some? ==> |Concat(run.handed)| <= maxBytes.value
      ensures r.Stored? && maxBytes.Some? ==> |whole| <= maxBytes.value
      ensures r.Failed? ==>
        Caused(r.why, reader.Ending(), old(reader.Content()), whole, run.handed, old(caller.Counts()), caller.Counts())
      ensures r == ResumeOutOfRange ==> cfg.resumeFrom > |Recorded(old(kv.rows), cfg.key)|
      ensures r == Failed(Flooded) ==>
        caller.floods >= old(caller.floods) + if |cfg.names| > 1 && cfg.backend < |cfg.names| then 2 else 1
      ensures r != ResumeOutOfRange ==>
        && cfg.resumeFrom <= |chunks|
        && forall i :: cfg.resumeFrom <= i < |chunks| ==>
             if |cfg.names| > 1 && cfg.backend < |cfg.names|
             then chunks[i].backend.Some? && chunks[i].backend.value in cfg.names else chunks[i].backend == None
      ensures r.Stored? && |cfg.names| > 1 && cfg.backend < |cfg.names| && pool.floodUntil == map[] &&
              foreign == old(foreign) ==>
        forall i :: cfg.resumeFrom <= i < |chunks| ==>
          chunks[i].backend == Some(cfg.names[(old(pool.cycle) + i - cfg.resumeFrom) % |cfg.names|])
    {
      hide Progress, Chunks, FromRecords, Deletions, Config.WellNamed, Run.Of, NothingRewritten, Recorded, Concat,
           Caused, Channel.Valid, TakingTurns, Config.Names;
      FreshChannel(channel);
      theirs := channel.blobs;
      ghost var s0 := Now();
      var prior := LoadPriorChunks();
      if prior == None {
        EmptyConcat();
        NothingYet(s0.blobs, s0.nextId);
        assert OnlyOthers(Run(cfg, s0, [], ResumeOutOfRange, s0, s0, true), channel.lost, channel.lost);
        RunRefused(cfg, s0, Chunks(whole, chunkSize));
        return ResumeOutOfRange, Run(cfg, s0, [], ResumeOutOfRange, s0, s0, true);
      }
      chunks := FromRecords(prior.value);
      PriorChunks(cfg, s0, prior);
      r, run := StoreRest(reader, s0, whole);
      NoteLost(run, Chunks(whole, chunkSize));
      ChunksNamed(run, Chunks(whole, chunkSize));
      if r.Stored? {
        TurnsTaken(cfg, old(Standing()), Standing(), chunks);
      } else if r == Failed(Flooded) {
        FloodedSends(reader.Ending(), old(reader.Content()), whole, run.handed, old(caller.Counts()), caller.Counts());
      }
    }

    /** What others have deleted meanwhile is recorded as lost. */
    ghost method NoteLost(run: Run, parts: seq<seq<Byte>>)
      requires Valid() && run.Of(parts) && run.s1 == Now() && run.r != ResumeOutOfRange
      requires run.cfg.resumeFrom <= |Recorded(run.s0.rows, run.cfg.key)|
      requires NothingRewritten(run.s0.blobs, run.s0.nextId, channel.blobs, channel.nextId)
      requires forall h :: h in run.s0.blobs ==> h.1 < run.s0.nextId
      modifies channel`lost
      ensures Valid() && OnlyOthers(run, old(channel.lost), channel.lost)
    {
      hide Run.Of, Config.WellNamed;
      forall h | h in run.s0.blobs && h in theirs && (h in Deletions(run.cfg, Begin(run.cfg, run.s0).chunks) ==>
        run.r.Stored? || run.r == Failed(Died))
        ensures h in channel.blobs
      {
        RestStays(run, parts, h);
      }
      channel.lost := channel.lost + ((run.s0.blobs.Keys - theirs.Keys) - channel.blobs.Keys);
    }

    /** The rest of store_stream, once the chunks resumed from are listed. */
    method StoreRest(reader: BodyReader, ghost s0: State, ghost whole: seq<Byte>) returns (r: Outcome, ghost run: Run)
      requires Valid() && reader.Valid() && skipRemaining == cfg.resumeFrom <= |Recorded(s0.rows, cfg.key)|
      requires Now() == Begin(cfg, s0) && Progress(cfg, Now(), [], Now())
      requires reader.Content() <= whole && (reader.Ending() == Complete ==> reader.Content() == whole)
      modifies this, reader, channel`blobs, channel`nextId, kv, pool`floodUntil, pool`rr, pool`cycle, caller
      ensures Valid() && run.Of(Chunks(whole, chunkSize)) && r != ResumeOutOfRange
      ensures run.cfg == cfg && run.r == r && run.s0 == s0 && run.s1 == Now()
      ensures r.Stored? ==> TakingTurns(cfg, old(Standing()), Standing(), chunks)
      ensures run.allDeleted <==> caller.keptByError == old(caller.keptByError)
      ensures NoFewer(old(caller.Counts()), caller.Counts())
      ensures NothingRewritten(s0.blobs, s0.nextId, channel.blobs, channel.nextId)
      ensures reader.Ending() == old(reader.Ending())
      ensures r.Stored? ==> reader.Ending() == Complete && r.hashed == whole
      ensures maxBytes.Some? ==> |Concat(run.handed)| <= maxBytes.value
      ensures r.Stored? && maxBytes.Some? ==> |whole| <= maxBytes.value
      ensures r.Failed? ==>
        Caused(r.why, reader.Ending(), old(reader.Content()), whole, run.handed, old(caller.Counts()), caller.Counts())
    {
      hide Progress, Chunks, FromRecords, Config.WellNamed, Run.Of, Survives, Undone, Asked, NothingRewritten, FreshIds,
           SameRow, Recorded, Concat, Caused, Channel.Valid, TakingTurns;
      var hashed, failure;
      ghost var handed, last;
      hashed, failure, handed, last := ChunkStream(reader, Begin(cfg, s0), whole);
      r := if failure == None then Stored(hashed) else Failed(failure.value);
      ghost var after, kept := caller.Counts(), old(caller.keptByError);
      if r.Failed? {
        if r.why != Died {
          Abort(Begin(cfg, s0), handed);
        }
        CausedStill(r.why, reader.Ending(), old(reader.Content()), whole, handed, old(caller.Counts()), after,
            caller.Counts());
      }
      NotRewrittenLater(s0, last, Now());
      run := Run(cfg, s0, handed, r, last, Now(), caller.keptByError == kept);
      RunEnds(run, Chunks(whole, chunkSize));
    }

    lemma CausedBySend(why: Failure, ending: Ending, arrived: seq<Byte>, whole: seq<Byte>, handed: seq<seq<Byte>>,
                       before: Tally, after: Tally)
      requires match why
               case Flooded => after.floods >= before.floods + if cfg.Distributes() then 2 else 1
               case RefusedByBackend => after.refusals > before.refusals
               case Died => after.kills > before.kills
               case _ => false
      ensures Caused(why, ending, arrived, whole, handed, before, after)
    {
    }

    lemma FloodedSends(ending: Ending, arrived: seq<Byte>, whole: seq<Byte>, handed: seq<seq<Byte>>, before: Tally,
                       after: Tally)
      requires Caused(Flooded, ending, arrived, whole, handed, before, after)
      ensures after.floods >= before.floods + if |cfg.names| > 1 && cfg.backend < |cfg.names| then 2 else 1
    {
    }

    lemma CausedStill(why: Failure, ending: Ending, arrived: seq<Byte>, whole: seq<Byte>, handed: seq<seq<Byte>>,
                      before: Tally, after: Tally, later: Tally)
      requires Caused(why, ending, arrived, whole, handed, before, after)
      requires after.floods == later.floods && after.refusals == later.refusals && after.kills == later.kills
      ensures Caused(why, ending, arrived, whole, handed, before, later)
    {
    }

    /** A handled failure rolls back. */
    method Abort(ghost start: State, ghost handed: seq<seq<Byte>>)
      requires Valid() && Progress(cfg, start, handed, Now())
      modifies this`theirs, this`foreign, channel`blobs, channel`nextId, kv, pool`floodUntil, pool`rr, pool`cycle
      modifies caller`keptByError
      ensures Valid() && caller.keptByError >= old(caller.keptByError)
      ensures SameRow(cfg.key, old(kv.rows), kv.rows)
      ensures NothingRewritten(old(channel.blobs), old(channel.nextId), channel.blobs, channel.nextId)
      ensures Asked(cfg, old(Now()), Now())
      ensures caller.keptByError == old(caller.keptByError) ==> Undone(cfg, old(Now()), Now())
    {
      hide Progress, Deletions, Config.WellNamed, Keeps, AgreeBut, Mine, Undone, Asked, SameRow, NothingRewritten;
      ProgressAgrees(cfg, start, handed, Now());
      Rollback();
    }

    /** commit: None for an empty object (the source's IndexError). */
    method Commit(backendName: string, hashed: seq<Byte>) returns (row: Option<Row>)
      ensures row == None <==> chunks == []
      ensures row.Some? ==>
        && row.value.manifest == ToJson(Manifest(chunks, SizeOf(chunks)))
        && row.value.size == SizeOf(chunks) && row.value.hashed == hashed && row.value.fileId == chunks[0].fileId
        && row.value.backend == if chunks[0].backend in {None, Some("")} then backendName else chunks[0].backend.value
    {
      var total := 0;
      for i := 0 to |chunks|
        invariant total == SizeOf(chunks[..i])
      {
        SizeStep(chunks, i);
        total := total + chunks[i].size;
      }
      assert chunks[..|chunks|] == chunks;
      if chunks == [] {
        return None;
      }
      var first := chunks[0];
      var name := if first.backend.Some? && first.backend.value != "" then first.backend.value else backendName;
      row := Some(Row(name, first.fileId, total, hashed, ToJson(Manifest(chunks, total))));
    }

    /** drop_checkpoint. */
    method DropCheckpoint()
      modifies kv
      ensures Recorded(kv.rows, cfg.key) == []
      ensures forall k :: k in old(kv.rows) && Some(k) != cfg.key ==> k in kv.rows && kv.rows[k] == old(kv.rows)[k]
      ensures forall k :: k in kv.rows ==> k in old(kv.rows) && Some(k) != cfg.key
    {
      if cfg.key.Some? {
        kv.rows := kv.rows - {cfg.key.value};
      }
    }
  }

  lemma NoTurnYet(cfg: Config, start: State, turn: Turn)
    requires Progress(cfg, start, [], start)
    ensures TakingTurns(cfg, turn, turn, start.chunks)
  {
  }

  lemma PostedChunks(cfg: Config, s: State, data: seq<Byte>, t: State)
    requires Posted(cfg, s, data, t)
    ensures |t.chunks| == |s.chunks| + 1 && t.chunks[..|s.chunks|] == s.chunks
  {
  }

  /** What a run posts names a member of the pool exactly when the chunks are distributed. */
  lemma ChunksNamed(run: Run, parts: seq<seq<Byte>>)
    requires run.Of(parts) && run.r != ResumeOutOfRange
    ensures run.cfg.resumeFrom <= |run.s1.chunks|
    ensures forall i :: run.cfg.resumeFrom <= i < |run.s1.chunks| ==>
      if |run.cfg.names| > 1 && run.cfg.backend < |run.cfg.names|
      then run.s1.chunks[i].backend.Some? && run.s1.chunks[i].backend.value in run.cfg.names
      else run.s1.chunks[i].backend == None
  {
    hide HoldsAt, AgreeBut, Keeps, SameRow, Mine, Deletions, ToRecords;
  }

  lemma NothingYet(blobs: map<Handle, seq<Byte>>, nextId: nat)
    ensures NothingRewritten(blobs, nextId, blobs, nextId)
  {
  }

  lemma NotRewrittenLater(s: State, t: State, u: State)
    requires NothingRewritten(s.blobs, s.nextId, t.blobs, t.nextId)
    requires NothingRewritten(t.blobs, t.nextId, u.blobs, u.nextId)
    ensures NothingRewritten(s.blobs, s.nextId, u.blobs, u.nextId)
  {
  }

  lemma SurvivesItself(cfg: Config, start: State, handed: seq<seq<Byte>>, s: State)
    requires Progress(cfg, start, handed, s)
    ensures Survives(cfg, s, s)
  {
  }

  lemma ProgressAgrees(cfg: Config, start: State, handed: seq<seq<Byte>>, t: State)
    requires Progress(cfg, start, handed, t)
    ensures AgreeBut(Deletions(cfg, t.chunks), t)
  {
  }

  lemma PrefixDeletions(cfg: Config, chunks: seq<Chunk>, i: nat, c: Chunk)
    requires i < |chunks| && c == chunks[i]
    ensures Deletions(cfg, chunks[..i + 1]) == Deletions(cfg, chunks[..i]) + Deletions(cfg, [c])
    ensures Deletions(cfg, [c]) <= Deletions(cfg, chunks)
    ensures Deletions(cfg, [c]) == if c.messageId.Some? then {(cfg.HolderOf(c.backend), c.messageId.value)} else {}
  {
    assert chunks[..i + 1] == chunks[..i] + [c];
    DeletionsSplit(cfg, chunks[..i], [c]);
    assert chunks == chunks[..i + 1] + chunks[i + 1..];
    DeletionsSplit(cfg, chunks[..i + 1], chunks[i + 1..]);
    DeletionsOne(cfg, c);
  }

  lemma AgreesSince(cfg: Config, s: State, t: State)
    requires OthersOnly(cfg, Mine(cfg, s), Deletions(cfg, s.chunks), s, t)
    ensures AgreeBut(Deletions(cfg, t.chunks), t) && t.chunks == s.chunks
  {
  }

  lemma SameChunksSince(cfg: Config, s: State, t: State)
    requires OthersOnly(cfg, Mine(cfg, s), Deletions(cfg, s.chunks), s, t)
    ensures t.chunks == s.chunks
  {
  }

  lemma SameChunksArrived(cfg: Config, s: State, h: Handle, data: seq<Byte>, t: State)
    requires Arrived(cfg, s, h, data, t)
    ensures t.chunks == s.chunks
  {
  }

  /** A rollback after asking for the deletion of done. */
  ghost predicate Undoing(cfg: Config, s: State, t: State, done: set<Handle>, allDeleted: bool) {
    var listed := Deletions(cfg, s.chunks);
    && t.chunks == s.chunks && t.posts == s.posts && SameRow(cfg.key, s.rows, t.rows)
    && NothingRewritten(s.blobs, s.nextId, t.blobs, t.nextId)
    && Keeps(Mine(cfg, s) - done, s.blobs, t.blobs)
    && AgreeBut(listed, t) && StayApart(listed, s, t)
    && (allDeleted ==> forall h :: h in done && h in s.blobs ==> h !in t.blobs)
  }

  lemma UndoingStarts(cfg: Config, s: State)
    requires AgreeBut(Deletions(cfg, s.chunks), s) && FreshIds(s)
    ensures Undoing(cfg, s, s, Deletions(cfg, s.chunks[..0]), true)
  {
    NothingListed(cfg, s.(chunks := []));
  }

  lemma UndoingAgrees(cfg: Config, s: State, t: State, done: set<Handle>, allDeleted: bool)
    requires Undoing(cfg, s, t, done, allDeleted)
    ensures t.chunks == s.chunks && AgreeBut(Deletions(cfg, t.chunks), t)
  {
  }

  lemma UndoingEnds(cfg: Config, s: State, t: State, chunks: seq<Chunk>, allDeleted: bool)
    requires Undoing(cfg, s, t, Deletions(cfg, chunks[..|chunks|]), allDeleted) && s.chunks == chunks
    ensures SameRow(cfg.key, s.rows, t.rows) && NothingRewritten(s.blobs, s.nextId, t.blobs, t.nextId)
    ensures Keeps(Mine(cfg, s) - Deletions(cfg, chunks), s.blobs, t.blobs)
    ensures Asked(cfg, s, t) && (allDeleted ==> Undone(cfg, s, t))
  {
    hide Deletions, Mine;
    assert chunks[..|chunks|] == chunks;
  }

  lemma UndoingOthers(cfg: Config, s: State, t: State, u: State, done: set<Handle>, allDeleted: bool)
    requires Undoing(cfg, s, t, done, allDeleted) && FreshIds(s)
    requires OthersOnly(cfg, Mine(cfg, t), Deletions(cfg, t.chunks), t, u)
    ensures Undoing(cfg, s, u, done, allDeleted)
  {
    hide Deletions, Recorded, FromRecords, AgreeBut;
    MineStays(cfg, s, t);
  }

  lemma UndoingDelete(cfg: Config, s: State, t: State, u: State, done: set<Handle>, asked: set<Handle>, before: bool,
      after: bool)
    requires Undoing(cfg, s, t, done, before) && asked <= Deletions(cfg, s.chunks) && (after ==> before)
    requires u == t.(blobs := u.blobs) && (u.blobs == t.blobs - asked || (u.blobs == t.blobs && !after))
    ensures Undoing(cfg, s, u, done + asked, after)
  {
    hide Deletions, Mine;
  }

  /** The bytes handed over and the bytes to come make up the content. */
  ghost predicate Cut(whole: seq<Byte>, size: nat, hashed: seq<Byte>, handed: seq<seq<Byte>>, rest: seq<Byte>)
    requires size > 0
    ensures Cut(whole, size, hashed, handed, rest) ==>
      handed <= Chunks(whole, size) && Concat(handed) == hashed && |whole| == |hashed| + |rest|
  {
    Chunks(whole, size) == handed + Chunks(rest, size) && whole == hashed + rest && hashed == Concat(handed)
  }

  lemma CutStarts(whole: seq<Byte>, size: nat)
    requires size > 0
    ensures Cut(whole, size, [], [], whole)
  {
    EmptyConcat();
  }

  lemma CutEnds(whole: seq<Byte>, size: nat, hashed: seq<Byte>, handed: seq<seq<Byte>>)
    requires size > 0 && Cut(whole, size, hashed, handed, [])
    ensures handed == Chunks(whole, size) && hashed == whole
  {
    NoChunks(size);
    assert handed + [] == handed && hashed + [] == hashed;
  }

  /** One turn of the chunker. */
  lemma Advance(whole: seq<Byte>, size: nat, hashed: seq<Byte>, handed: seq<seq<Byte>>, rest: seq<Byte>,
                content: seq<Byte>, complete: bool, buf: seq<Byte>)
    returns (rest': seq<Byte>)
    requires size > 0 && buf != [] && buf == content[..Min(size, |content|)] && (|buf| == size || complete)
    requires Cut(whole, size, hashed, handed, rest)
    requires content <= rest && (complete ==> content == rest)
    ensures Cut(whole, size, hashed + buf, handed + [buf], rest')
    ensures |rest'| < |rest| && content[|buf|..] <= rest' && (complete ==> content[|buf|..] == rest')
  {
    hide Cut;
    assert buf == rest[..Min(size, |rest|)];
    rest' := rest[|buf|..];
    CutOne(whole, size, hashed, handed, rest, buf);
  }

  lemma CutOne(whole: seq<Byte>, size: nat, hashed: seq<Byte>, handed: seq<seq<Byte>>, rest: seq<Byte>, buf: seq<Byte>)
    requires size > 0 && rest != [] && buf == rest[..Min(size, |rest|)] && Cut(whole, size, hashed, handed, rest)
    ensures Cut(whole, size, hashed + buf, handed + [buf], rest[|buf|..])
  {
    hide Concat, Chunks;
    TakeChunk(rest, size);
    var rest' := rest[|buf|..];
    assert rest == buf + rest';
    Assoc(hashed, buf, rest');
    assert handed + ([buf] + Chunks(rest', size)) == (handed + [buf]) + Chunks(rest', size);
    ConcatSnoc(handed, buf);
  }
}
