/** Chunks and manifests of src/anbar/objects.py. */
module Manifests {
  import opened Bytes

  datatype Chunk = Chunk(
    index: nat,
    size: nat,
    fileId: nat,
    messageId: Option<nat>,
    botFileId: Option<nat>,
    backend: Option<string>)

  datatype Manifest = Manifest(chunks: seq<Chunk>, totalSize: nat)

  // ----- JSON, at the level of records -----

  /** A JSON chunk record; an absent key is None. */
  datatype JsonChunk = JsonChunk(i: nat, s: nat, f: nat, m: Option<nat>, b: Option<nat>, k: Option<string>)
  datatype JsonManifest = JsonManifest(chunks: seq<JsonChunk>, size: nat)

  /** The key "k" is written only for a name that is neither None nor empty. */
  function ChunkToJson(c: Chunk): JsonChunk {
    JsonChunk(c.index, c.size, c.fileId, c.messageId, c.botFileId,
              if c.backend.Some? && c.backend.value != "" then c.backend else None)
  }

  function ChunkFromJson(j: JsonChunk): Chunk {
    Chunk(j.i, j.s, j.f, j.m, j.b, j.k)
  }

  function ToJson(m: Manifest): JsonManifest {
    JsonManifest(seq(|m.chunks|, i requires 0 <= i < |m.chunks| => ChunkToJson(m.chunks[i])), m.totalSize)
  }

  function FromJson(d: JsonManifest): Manifest {
    Manifest(seq(|d.chunks|, i requires 0 <= i < |d.chunks| => ChunkFromJson(d.chunks[i])), d.size)
  }

  /** Loading a stored manifest gives it back exactly when no chunk carries the empty backend name. */
  lemma JsonRoundTrip(m: Manifest)
    ensures FromJson(ToJson(m)) == m <==> forall i :: 0 <= i < |m.chunks| ==> m.chunks[i].backend != Some("")
  {
    var back := FromJson(ToJson(m));
    forall i | 0 <= i < |m.chunks|
      ensures back.chunks[i] == m.chunks[i] <==> m.chunks[i].backend != Some("")
    {
    }
    if forall i :: 0 <= i < |m.chunks| ==> m.chunks[i].backend != Some("") {
      assert back.chunks == m.chunks;
    }
  }

  // ----- sizes and ranges -----

  function SizeOf(chunks: seq<Chunk>): nat {
    if chunks == [] then 0 else SizeOf(chunks[..|chunks| - 1]) + chunks[|chunks| - 1].size
  }

  lemma SizeStep(chunks: seq<Chunk>, i: nat)
    requires i < |chunks|
    ensures SizeOf(chunks[..i + 1]) == SizeOf(chunks[..i]) + chunks[i].size
  {
    assert chunks[..i + 1][..i] == chunks[..i];
  }

  /** prefix_sizes: the end offset of each chunk. */
  method PrefixSizes(chunks: seq<Chunk>) returns (ends: seq<nat>)
    ensures |ends| == |chunks|
    ensures forall i :: 0 <= i < |ends| ==> ends[i] == SizeOf(chunks[..i + 1])
  {
    ends := [];
    var acc := 0;
    for i := 0 to |chunks|
      invariant |ends| == i && acc == SizeOf(chunks[..i])
      invariant forall j :: 0 <= j < i ==> ends[j] == SizeOf(chunks[..j + 1])
    {
      SizeStep(chunks, i);
      acc := acc + chunks[i].size;
      ends := ends + [acc];
    }
  }

  datatype Segment = Segment(chunk: nat, offset: nat, length: nat)

  /** parts are byte strings of the sizes the chunks record. */
  ghost predicate Fits(parts: seq<seq<Byte>>, chunks: seq<Chunk>) {
    |parts| == |chunks| && forall i :: 0 <= i < |parts| ==> |parts[i]| == chunks[i].size
  }

  predicate InBounds(segs: seq<Segment>, chunks: seq<Chunk>) {
    forall k :: 0 <= k < |segs| ==>
      segs[k].chunk < |chunks| && segs[k].length > 0 && segs[k].offset + segs[k].length <= chunks[segs[k].chunk].size
  }

  /** Each chunk is used at most once, in order. */
  predicate Ascending(segs: seq<Segment>) {
    forall j, k :: 0 <= j < k < |segs| ==> segs[j].chunk < segs[k].chunk
  }

  /** The bytes the segments select. */
  function Gather(parts: seq<seq<Byte>>, segs: seq<Segment>): seq<Byte>
    requires forall k :: 0 <= k < |segs| ==>
      segs[k].chunk < |parts| && segs[k].offset + segs[k].length <= |parts[segs[k].chunk]|
  {
    if segs == [] then []
    else
      var last := segs[|segs| - 1];
      Gather(parts, segs[..|segs| - 1]) + parts[last.chunk][last.offset..last.offset + last.length]
  }

  lemma {:induction false} ConcatSize(parts: seq<seq<Byte>>, chunks: seq<Chunk>)
    requires Fits(parts, chunks)
    ensures |Concat(parts)| == SizeOf(chunks)
  {
    if parts != [] {
      ConcatSize(parts[..|parts| - 1], chunks[..|chunks| - 1]);
    }
  }

  /** A slice inside chunk i is a slice of the whole. */
  lemma {:induction false} SliceOfChunk(parts: seq<seq<Byte>>, chunks: seq<Chunk>, i: nat, off: nat, len: nat)
    requires Fits(parts, chunks) && i < |parts| && off + len <= chunks[i].size
    ensures SizeOf(chunks[..i]) + chunks[i].size <= |Concat(parts)|
    ensures Concat(parts)[SizeOf(chunks[..i]) + off..SizeOf(chunks[..i]) + off + len] == parts[i][off..off + len]
  {
    var n := |parts| - 1;
    var init := Concat(parts[..n]);
    ConcatSize(parts[..n], chunks[..n]);
    if i == n {
      assert Concat(parts) == init + parts[n];
    } else {
      SliceOfChunk(parts[..n], chunks[..n], i, off, len);
      assert chunks[..n][..i] == chunks[..i];
      assert Concat(parts)[..|init|] == init;
    }
  }

  /** The segments lie inside their chunks and, laid end to end, go from position start to pos. */
  ghost predicate Tiles(chunks: seq<Chunk>, segs: seq<Segment>, start: nat, pos: nat) {
    if segs == [] then pos == start
    else
      var last := segs[|segs| - 1];
      && last.chunk < |chunks| && last.length > 0 && last.offset + last.length <= chunks[last.chunk].size
      && pos == SizeOf(chunks[..last.chunk]) + last.offset + last.length
      && Tiles(chunks, segs[..|segs| - 1], start, pos - last.length)
  }

  lemma {:induction false} TilesInBounds(chunks: seq<Chunk>, segs: seq<Segment>, start: nat, pos: nat)
    requires Tiles(chunks, segs, start, pos)
    ensures InBounds(segs, chunks) && start <= pos
  {
    if segs != [] {
      TilesInBounds(chunks, segs[..|segs| - 1], start, pos - segs[|segs| - 1].length);
    }
  }

  /** For every content with the recorded sizes, the segments select exactly its bytes [start, pos). */
  lemma {:induction false} TilesGather(chunks: seq<Chunk>, segs: seq<Segment>, start: nat, pos: nat,
          parts: seq<seq<Byte>>)
    requires Tiles(chunks, segs, start, pos) && Fits(parts, chunks)
    requires start <= SizeOf(chunks)
    ensures InBounds(segs, chunks)
    ensures start <= pos <= |Concat(parts)| && Gather(parts, segs) == Concat(parts)[start..pos]
  {
    hide SizeOf, Concat;
    TilesInBounds(chunks, segs, start, pos);
    ConcatSize(parts, chunks);
    if segs != [] {
      var last := segs[|segs| - 1];
      TilesGather(chunks, segs[..|segs| - 1], start, pos - last.length, parts);
      SliceOfChunk(parts, chunks, last.chunk, last.offset, last.length);
    }
  }

  lemma {:induction false} SizeMonotone(chunks: seq<Chunk>, i: nat, j: nat)
    requires i <= j <= |chunks|
    ensures SizeOf(chunks[..i]) <= SizeOf(chunks[..j])
  {
    if i < j {
      SizeMonotone(chunks, i, j - 1);
      SizeStep(chunks, j - 1);
    }
  }

  /** map_range: None for a range outside the object (the source's ValueError). */
  method MapRange(m: Manifest, start: int, end: int) returns (r: Option<seq<Segment>>)
    requires m.totalSize <= SizeOf(m.chunks)
    ensures r.Some? <==> 0 <= start < end <= m.totalSize
    ensures r.Some? ==> Tiles(m.chunks, r.value, start, end) && Ascending(r.value)
  {
    hide SizeOf;
    if !(0 <= start < end <= m.totalSize) {
      return None;
    }
    var chunks := m.chunks;
    var ends := PrefixSizes(chunks);
    var out: seq<Segment>, pos: nat := [], start;
    while pos < end
      invariant pos <= end
      invariant Tiles(chunks, out, start, pos) && Ascending(out)
      invariant out != [] && pos < end ==>
        out[|out| - 1].chunk < |chunks| && pos == SizeOf(chunks[..out[|out| - 1].chunk + 1])
      decreases end - pos
    {
      var i := FirstEndAfter(chunks, ends, pos);
      var chunkStart := if i > 0 then ends[i - 1] else 0;
      var off := pos - chunkStart;
      var take := Min(ends[i] - pos, end - pos);
      SizeStep(chunks, i);
      SizeEmpty(chunks);
      if out != [] && out[|out| - 1].chunk >= i {
        SizeMonotone(chunks, i + 1, out[|out| - 1].chunk + 1);
      }
      var seg := Segment(i, off, take);
      assert (out + [seg])[..|out|] == out;
      out := out + [seg];
      pos := pos + take;
    }
    r := Some(out);
  }

  lemma SizeEmpty(chunks: seq<Chunk>)
    ensures SizeOf(chunks[..0]) == 0
  {
  }

  /** The generator expression: the first chunk whose end lies beyond pos. */
  method FirstEndAfter(chunks: seq<Chunk>, ends: seq<nat>, pos: nat) returns (i: nat)
    requires |ends| == |chunks| && forall j :: 0 <= j < |ends| ==> ends[j] == SizeOf(chunks[..j + 1])
    requires pos < SizeOf(chunks)
    ensures i < |ends| && ends[i] > pos
    ensures SizeOf(chunks[..i]) <= pos
  {
    i := 0;
    assert chunks[..|chunks|] == chunks;
    while i < |ends| && ends[i] <= pos
      invariant i <= |ends| && SizeOf(chunks[..i]) <= pos
    {
      i := i + 1;
    }
  }
}
