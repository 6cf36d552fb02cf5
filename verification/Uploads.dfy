/** The request-body reader of src/anbar/api/upload.py and the chunk boundaries of
  * src/anbar/objects.py. */
module Uploads {
  import opened Bytes

  // ----- the reader -----

  /** What the network does next: deliver bytes (possibly none), go silent, or the process is killed. */
  datatype Event = Data(bytes: seq<Byte>) | Stall | Kill

  datatype Ending = Complete | Stalled | Killed

  datatype ReadResult = Got(bytes: seq<Byte>) | Broken(why: Ending)

  function Delivered(events: seq<Event>): seq<Byte> {
    if events == [] || !events[0].Data? then [] else events[0].bytes + Delivered(events[1..])
  }

  function EndingOf(events: seq<Event>): Ending {
    if events == [] then Complete
    else match events[0]
      case Data(_) => EndingOf(events[1..])
      case Stall => Stalled
      case Kill => Killed
  }

  class BodyReader {
    var events: seq<Event>
    var buf: seq<Byte>
    var eof: bool

    constructor (events: seq<Event>)
      ensures Content() == Delivered(events) && Ending() == EndingOf(events) && Valid()
    {
      this.events, buf, eof := events, [], false;
    }

    predicate Valid()
      reads this
    {
      eof ==> events == []
    }

    /** The bytes still to come, however they are split into pieces. */
    ghost function Content(): seq<Byte>
      reads this
    {
      buf + Delivered(events)
    }

    ghost function Ending(): Ending
      reads this
    {
      EndingOf(events)
    }

    /** read: exactly n bytes, or what is left of a complete body; otherwise the failure. */
    method Read(n: nat) returns (r: ReadResult)
      requires Valid()
      modifies this
      ensures Valid() && Ending() == old(Ending())
      ensures var all := old(Content());
              if n <= |all| then r == Got(all[..n]) && Content() == all[n..]
              else if Ending() == Complete then r == Got(all) && Content() == []
              else r == Broken(Ending()) && Content() == all
    {
      while |buf| < n && !eof
        invariant Valid() && Content() == old(Content()) && Ending() == old(Ending())
        decreases |events|, !eof
      {
        if events == [] {
          eof := true;
        } else {
          match events[0]
          case Data(d) =>
            assert (buf + d) + Delivered(events[1..]) == buf + (d + Delivered(events[1..]));
            buf := buf + d;
            events := events[1..];
          case Stall => return Broken(Stalled);
          case Kill => return Broken(Killed);
        }
      }
      var k := Min(n, |buf|);
      assert buf[..k] + (buf[k..] + Delivered(events)) == Content();
      r := Got(buf[..k]);
      buf := buf[k..];
    }
  }

  // ----- chunk boundaries -----

  /** Full chunks and a non-empty tail. */
  function Chunks(content: seq<Byte>, size: nat): (parts: seq<seq<Byte>>)
    requires size > 0
    decreases |content|
  {
    if content == [] then []
    else if |content| <= size then [content]
    else [content[..size]] + Chunks(content[size..], size)
  }

  ghost predicate Chunked(parts: seq<seq<Byte>>, size: nat) {
    && (forall i :: 0 <= i < |parts| - 1 ==> |parts[i]| == size)
    && (parts != [] ==> 0 < |parts[|parts| - 1]| <= size)
  }

  /** The chunks of a content are the only list of full chunks with a non-empty tail that joins to it. */
  lemma {:induction false} ChunksExactly(content: seq<Byte>, size: nat, parts: seq<seq<Byte>>)
    requires size > 0
    ensures parts == Chunks(content, size) <==> Chunked(parts, size) && Concat(parts) == content
    decreases |content|
  {
    ChunksFit(content, size);
    if Chunked(parts, size) && Concat(parts) == content {
      if parts != [] {
        var head, rest := parts[0], parts[1..];
        assert parts == [head] + rest;
        ConcatAppend([head], rest);
        ConcatSnoc([], head);
        assert [] + [head] == [head];
        assert content == head + Concat(rest);
        assert content[|head|..] == Concat(rest);
        assert content[..|head|] == head;
        if rest != [] {
          assert |rest[|rest| - 1]| > 0 && |Concat(rest)| > 0;
          ChunksExactly(Concat(rest), size, rest);
        }
      }
    }
  }

  lemma {:induction false} ChunksFit(content: seq<Byte>, size: nat)
    requires size > 0
    ensures Chunked(Chunks(content, size), size) && Concat(Chunks(content, size)) == content
    ensures Chunks(content, size) == [] <==> content == []
    decreases |content|
  {
    ConcatSnoc([], content);
    assert [] + [content] == [content];
    if |content| > size {
      var head, rest := content[..size], Chunks(content[size..], size);
      ChunksFit(content[size..], size);
      ConcatSnoc([], head);
      assert [] + [head] == [head];
      ConcatAppend([head], rest);
      assert content[..size] + content[size..] == content;
    }
  }

  /** One turn of the chunker: the next chunk, for every content that starts with what has arrived. */
  lemma TakeChunk(whole: seq<Byte>, size: nat)
    requires size > 0 && whole != []
    ensures var n := Min(size, |whole|); Chunks(whole, size) == [whole[..n]] + Chunks(whole[n..], size)
  {
    assert Chunks([], size) == [];
    if |whole| <= size {
      assert whole[..|whole|] == whole && whole[|whole|..] == [];
    }
  }
}
