/** What the object layer sees of Telegram and of the kv table: a channel that keeps posted blobs under
  * fresh ids, may be flooded, refuse or fail at any call, and durable key-value rows.  A blob is found
  * under the pool member that posted it. */
module Storage {
  import opened Bytes

  type Handle = (nat, nat)   // (member, message id)

  datatype SendResult = Sent(id: nat) | FloodBudgetExceeded | Refused | Killed

  datatype Tally = Tally(posts: nat, floods: nat, refusals: nat, kills: nat, keptByError: nat, failedOpens: nat)

  /** The failures counted in a come before those in b. */
  predicate NoFewer(a: Tally, b: Tally) {
    a.floods <= b.floods && a.refusals <= b.refusals && a.kills <= b.kills
  }

  /** A request, with a record of how its own calls to the channel ended. */
  class Caller {
    ghost var posts: nat           // sends that posted a blob and said so
    ghost var floods: nat          // sends that ended in FloodBudgetExceeded
    ghost var refusals: nat        // sends that ended in any other error
    ghost var kills: nat           // sends during which the process was killed
    ghost var keptByError: nat     // deletions that failed and left a blob behind
    ghost var failedOpens: nat     // fetches of a blob that was there, and failed

    ghost function Counts(): Tally
      reads this
    {
      Tally(posts, floods, refusals, kills, keptByError, failedOpens)
    }

    constructor ()
      ensures Counts() == Tally(0, 0, 0, 0, 0, 0)
    {
      posts, floods, refusals, kills, keptByError, failedOpens := 0, 0, 0, 0, 0, 0;
    }
  }

  /** Blobs may have come and gone, but none changed, and every new one has a new id. */
  ghost predicate NothingRewritten(before: map<Handle, seq<Byte>>, beforeId: nat, after: map<Handle, seq<Byte>>,
                                   afterId: nat)
  {
    && beforeId <= afterId
    && forall h :: h in after && h.1 < beforeId ==> h in before && after[h] == before[h]
  }

  class Channel {
    var blobs: map<Handle, seq<Byte>>
    var nextId: nat
    ghost var lost: set<Handle>   // blobs that other requests have deleted

    constructor ()
      ensures blobs == map[] && nextId == 0 && lost == {} && Valid()
    {
      blobs, nextId, lost := map[], 0, {};
    }

    /** Ids are not used twice, whoever the member is, and what is lost does not come back. */
    ghost predicate Valid()
      reads this
    {
      && (forall h :: h in blobs ==> h.1 < nextId)
      && (forall h :: h in lost ==> h !in blobs && h.1 < nextId)
      && forall g, h :: g in blobs && h in blobs && g.1 == h.1 ==> g == h
    }

    /** store: the network decides.  A send that reports an error has posted nothing; the process may
      * be killed before or after the post. */
    method Store(caller: Caller, member: nat, data: seq<Byte>) returns (r: SendResult)
      requires Valid()
      modifies this`blobs, this`nextId, caller`posts, caller`floods, caller`refusals, caller`kills
      ensures Valid()
      ensures r.Sent? ==> r.id == old(nextId)
      ensures r.Sent? ==> blobs == old(blobs)[(member, r.id) := data] && nextId == old(nextId) + 1
      ensures r.FloodBudgetExceeded? || r.Refused? ==> blobs == old(blobs) && nextId == old(nextId)
      ensures r.Killed? ==>
        || (blobs == old(blobs) && nextId == old(nextId))
        || (blobs == old(blobs)[(member, old(nextId)) := data] && nextId == old(nextId) + 1)
      ensures caller.posts == old(caller.posts) + if r.Sent? then 1 else 0
      ensures caller.floods == old(caller.floods) + if r.FloodBudgetExceeded? then 1 else 0
      ensures caller.refusals == old(caller.refusals) + if r.Refused? then 1 else 0
      ensures caller.kills == old(caller.kills) + if r.Killed? then 1 else 0
    {
      r := *;
      match r
      case Sent(_) =>
        r := Sent(nextId);
        blobs, nextId := blobs[(member, nextId) := data], nextId + 1;
        caller.posts := caller.posts + 1;
      case FloodBudgetExceeded => caller.floods := caller.floods + 1;
      case Refused => caller.refusals := caller.refusals + 1;
      case Killed =>
        caller.kills := caller.kills + 1;
        var posted: bool := *;
        if posted {
          blobs, nextId := blobs[(member, nextId) := data], nextId + 1;
        }
    }

    /** delete: without a message id nothing happens; a deletion may fail. */
    method Delete(caller: Caller, member: nat, messageId: Option<nat>)
      requires Valid()
      modifies this`blobs, caller`keptByError
      ensures Valid() && caller.keptByError >= old(caller.keptByError)
      ensures messageId == None ==> blobs == old(blobs) && caller.keptByError == old(caller.keptByError)
      ensures messageId.Some? ==>
        || (blobs == old(blobs) - {(member, messageId.value)} && caller.keptByError == old(caller.keptByError))
        || (blobs == old(blobs) && caller.keptByError > old(caller.keptByError))
    {
      if messageId.Some? {
        var fails: bool := *;
        if !fails {
          blobs := blobs - {(member, messageId.value)};
        } else {
          caller.keptByError := caller.keptByError + 1;
        }
      }
    }

    /** Other requests delete some blobs and post one. */
    method Disturb(gone: set<Handle>, member: nat, data: seq<Byte>)
      requires Valid()
      modifies this`blobs, this`nextId
      ensures Valid() && nextId == old(nextId) + 1
      ensures blobs == (old(blobs) - gone)[(member, old(nextId)) := data]
    {
      blobs := (blobs - gone)[(member, nextId) := data];
      nextId := nextId + 1;
    }

    /** open: the whole blob if it is there, unless the call fails. */
    method Open(caller: Caller, member: nat, id: nat) returns (r: Option<seq<Byte>>)
      modifies caller`failedOpens
      ensures r.Some? ==> (member, id) in blobs && r.value == blobs[(member, id)]
      ensures caller.failedOpens ==
        old(caller.failedOpens) + if r == None && (member, id) in blobs then 1 else 0
    {
      if (member, id) !in blobs {
        return None;
      }
      var fails: bool := *;
      if fails {
        caller.failedOpens := caller.failedOpens + 1;
        return None;
      }
      r := Some(blobs[(member, id)]);
    }

    /** open through a bot that has seen the message, whoever posted it, within a time limit. */
    method OpenByBot(id: nat) returns (r: Option<seq<Byte>>)
      ensures r.Some? ==> exists h :: h in blobs && h.1 == id && r.value == blobs[h]
    {
      var fails: bool := *;
      if !fails && exists h :: h in blobs && h.1 == id {
        var h :| h in blobs && h.1 == id;
        return Some(blobs[h]);
      }
      r := None;
    }
  }

  /** One chunk in an upload checkpoint. */
  datatype Record = Record(s: nat, f: nat, m: Option<nat>, k: Option<string>)

  /** A checkpoint row; anything that does not parse counts as unreadable. */
  datatype Saved = Unreadable | Envelope(chunks: seq<Record>)

  class Kv {
    var rows: map<string, Saved>

    constructor ()
      ensures rows == map[]
    {
      rows := map[];
    }
  }
}
