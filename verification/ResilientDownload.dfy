/** _resilient_telethon_iter in src/anbar/telegram_ingest.py: a single stream that is reopened at the
  * current offset after an error.  What the client library does next is the script. */
module ResilientDownload {
  import opened Bytes

  const MAX_RETRIES: nat := 10

  datatype Event =
    | Piece(size: nat)   // the stream delivers its next bytes, at most size of them
    | End                // the stream ends
    | Fault              // an error other than a flood wait
    | FloodWait          // a flood wait, slept out

  datatype Outcome = Done | Failed | Pending

  /** The bytes a stream opened at (or advanced to) offset delivers next. */
  function NextBytes(file: seq<Byte>, offset: nat, size: nat): (b: seq<Byte>)
    requires offset <= |file|
    ensures offset + |b| <= |file| && file[..offset] + b == file[..offset + |b|]
  {
    file[offset..Min(offset + size, |file|)]
  }

  /** The offset after the events. */
  function OffsetAfter(file: seq<Byte>, events: seq<Event>): (o: nat)
    ensures o <= |file|
  {
    if events == [] then 0
    else
      var o, e := OffsetAfter(file, events[..|events| - 1]), events[|events| - 1];
      if e.Piece? then o + |NextBytes(file, o, e.size)| else o
  }

  /** The number of faults in the events. */
  function Faults(events: seq<Event>): nat {
    if events == [] then 0 else Faults(events[..|events| - 1]) + if events[|events| - 1].Fault? then 1 else 0
  }

  /** events[from..] delivered no byte, the event before it did (if there is one), and n of
    * events[from..] are faults. */
  ghost predicate FaultsFrom(file: seq<Byte>, events: seq<Event>, from: nat, n: nat) {
    && from <= |events| && OffsetAfter(file, events[..from]) == OffsetAfter(file, events)
    && (from > 0 ==> OffsetAfter(file, events[..from - 1]) < OffsetAfter(file, events[..from]))
    && Faults(events[from..]) == n
  }

  /** The iterator has seen n faults since the last byte it delivered. */
  ghost predicate FaultsSinceProgress(file: seq<Byte>, events: seq<Event>, n: nat) {
    exists from: nat :: FaultsFrom(file, events, from, n)
  }

  lemma {:induction false} OffsetMonotone(file: seq<Byte>, events: seq<Event>, j: nat)
    requires j <= |events|
    ensures OffsetAfter(file, events[..j]) <= OffsetAfter(file, events)
  {
    if j < |events| {
      assert events[..|events| - 1][..j] == events[..j];
      OffsetMonotone(file, events[..|events| - 1], j);
    } else {
      assert events[..j] == events;
    }
  }

  lemma ProgressResets(file: seq<Byte>, events: seq<Event>, e: Event)
    requires OffsetAfter(file, events + [e]) > OffsetAfter(file, events)
    ensures FaultsFrom(file, events + [e], |events| + 1, 0)
  {
    var more := events + [e];
    assert more[..|more|] == more && more[|more|..] == [] && more[..|events|] == events;
  }

  lemma StallExtends(file: seq<Byte>, events: seq<Event>, e: Event, from: nat, n: nat)
    requires FaultsFrom(file, events, from, n)
    requires OffsetAfter(file, events + [e]) == OffsetAfter(file, events)
    ensures FaultsFrom(file, events + [e], from, n + if e.Fault? then 1 else 0)
  {
    var more := events + [e];
    hide OffsetAfter;
    assert more[..from] == events[..from];
    if from > 0 {
      assert more[..from - 1] == events[..from - 1];
    }
    assert more[from..] == events[from..] + [e];
    assert (events[from..] + [e])[..|events| - from] == events[from..];
  }

  /** The count is determined by the events. */
  lemma CountUnique(file: seq<Byte>, events: seq<Event>, i: nat, j: nat, n: nat, m: nat)
    requires FaultsFrom(file, events, i, n) && FaultsFrom(file, events, j, m) && i <= j
    ensures n == m
  {
    hide OffsetAfter;
    if i < j {
      assert events[..j - 1][..i] == events[..i] && events[..j][..j - 1] == events[..j - 1];
      OffsetMonotone(file, events[..j - 1], i);
      OffsetMonotone(file, events, j);
    }
  }

  lemma NotYet(file: seq<Byte>, events: seq<Event>, from: nat, n: nat)
    requires FaultsFrom(file, events, from, n) && n <= 10
    ensures !FaultsSinceProgress(file, events, 11)
  {
    hide FaultsFrom;
    if j: nat :| FaultsFrom(file, events, j, 11) {
      if j < from { CountUnique(file, events, j, from, 11, n); } else { CountUnique(file, events, from, j, n, 11); }
    }
  }

  /** The events make the iterator stop: the stream has ended; or it has broken off and by then the expected
    * size was reached, or the eleventh fault had come without a byte in between.  An open stream is read to
    * its end, whatever size is expected. */
  ghost predicate Stops(file: seq<Byte>, totalExpected: nat, events: seq<Event>) {
    && events != []
    && var last := events[|events| - 1];
    || last == End
    || ((last == Fault || last == FloodWait) && 0 < totalExpected <= OffsetAfter(file, events))
    || FaultsSinceProgress(file, events, 11)
  }

  /** Restart at the offset: after any events the iterator has yielded exactly file[..offset]; it fails
    * exactly when more than ten faults came in a row without a byte in between, and it stops at
    * the first event that makes it stop. */
  method ResilientIter(file: seq<Byte>, totalExpected: nat, script: seq<Event>)
    returns (yielded: seq<seq<Byte>>, outcome: Outcome, used: nat)
    ensures used <= |script|
    ensures Concat(yielded) == file[..OffsetAfter(file, script[..used])]
    ensures forall k :: 0 <= k < |yielded| ==> yielded[k] != []
    ensures outcome == Failed <==> FaultsSinceProgress(file, script[..used], 11)
    ensures forall k :: 0 <= k < used ==> !Stops(file, totalExpected, script[..k])
    ensures outcome == Pending <==> !Stops(file, totalExpected, script[..used])
    ensures outcome == Pending ==> used == |script|
  {
    hide FaultsFrom, Concat, OffsetAfter;
    yielded, used := [], 0;
    var offset, retries := 0, 0;
    ghost var from: nat := 0;
    NoEvents(file);
    while totalExpected == 0 || offset < totalExpected
      invariant used <= |script| && offset == OffsetAfter(file, script[..used])
      invariant Concat(yielded) == file[..offset]
      invariant forall k :: 0 <= k < |yielded| ==> yielded[k] != []
      invariant retries <= MAX_RETRIES && FaultsFrom(file, script[..used], from, retries)
      invariant used > 0 ==> script[used - 1] == Fault || script[used - 1] == FloodWait
      invariant forall k :: 0 <= k < used ==> !Stops(file, totalExpected, script[..k])
      decreases |script| - used
    {
      NotYet(file, script[..used], from, retries);
      while used < |script| && script[used].Piece?
        invariant used <= |script| && offset == OffsetAfter(file, script[..used])
        invariant Concat(yielded) == file[..offset]
        invariant forall k :: 0 <= k < |yielded| ==> yielded[k] != []
        invariant retries <= MAX_RETRIES && FaultsFrom(file, script[..used], from, retries)
        invariant forall k :: 0 <= k <= used ==> !Stops(file, totalExpected, script[..k])
        decreases |script| - used
      {
        ghost var before, e := script[..used], script[used];
        assert script[..used + 1] == before + [e];
        OneMore(file, before, e);
        var chunk := NextBytes(file, offset, script[used].size);
        used := used + 1;
        if chunk != [] {
          offset := offset + |chunk|;
          retries := 0;
          ConcatSnoc(yielded, chunk);
          yielded := yielded + [chunk];
          ProgressResets(file, before, e);
          from := used;
        } else {
          StallExtends(file, before, e, from, retries);
        }
        NotYet(file, script[..used], from, retries);
      }
      NotYet(file, script[..used], from, retries);
      if used == |script| {
        return yielded, Pending, used;
      }
      var e := script[used];
      ghost var before := script[..used];
      assert script[..used + 1] == before + [e];
      OneMore(file, before, e);
      used := used + 1;
      StallExtends(file, before, e, from, retries);
      if e == End {
        NotYet(file, script[..used], from, retries);
        return yielded, Done, used;
      }
      if e == Fault {
        retries := retries + 1;
        if retries > MAX_RETRIES {
          return yielded, Failed, used;
        }
      }
    }
    NotYet(file, script[..used], from, retries);
    outcome := Done;
  }

  lemma OneMore(file: seq<Byte>, events: seq<Event>, e: Event)
    ensures OffsetAfter(file, events + [e]) ==
      OffsetAfter(file, events) + if e.Piece? then |NextBytes(file, OffsetAfter(file, events), e.size)| else 0
  {
    assert (events + [e])[..|events|] == events;
  }

  lemma NoEvents(file: seq<Byte>)
    ensures FaultsFrom(file, [], 0, 0) && OffsetAfter(file, []) == 0 && Concat([]) == []
  {
  }
}
