/** The object rows of src/anbar/db.py and the metadata cache in front of them.  SQL tables are maps; the
  * clock, generated ids and the rows a LIKE pattern matches are parameters. */
module Databases {
  import opened Bytes
  import opened Lru

  /** A row of the objects table; content stands for the columns no operation rewrites. */
  datatype Row = Row(filename: string, content: nat, createdAt: nat, downloaded: nat, deletedAt: Option<nat>)

  type Rows = map<string, Row>
  type CacheEntry = Entry<string, Row>

  // ----- the cache -----

  class ObjectLRU {
    const capacity: nat
    var entries: seq<CacheEntry>
    ghost var lastUse: map<string, nat>
    ghost var ticks: nat

    ghost predicate Valid()
      reads this
    {
      && |entries| <= capacity && InRecencyOrder(entries, lastUse)
      && forall i :: 0 <= i < |entries| ==> lastUse[entries[i].key] < ticks
    }

    constructor (capacity: nat)
      ensures Valid() && entries == [] && this.capacity == capacity
    {
      this.capacity, entries, lastUse, ticks := capacity, [], map[], 0;
    }

    method Get(key: string) returns (r: Option<Row>)
      requires Valid()
      modifies this
      ensures Valid()
      ensures var i := Find(old(entries), key);
              if i == |old(entries)| then r == None && entries == old(entries)
              else r == Some(old(entries)[i].value) && entries == Without(old(entries), key) + [old(entries)[i]]
      ensures forall e :: e in entries ==> e in old(entries)
      ensures r.Some? ==> exists e :: e in old(entries) && e.key == key && e.value == r.value
      ensures r == None ==> forall e :: e in entries ==> e.key != key
      ensures if r.Some? then Touched(old(lastUse), old(ticks), lastUse, ticks, key)
              else lastUse == old(lastUse) && ticks == old(ticks)
    {
      WithoutMembers(entries, key);
      var i := Find(entries, key);
      if i == |entries| {
        return None;
      }
      var e := entries[i];
      assert e in entries;
      r := Some(e.value);
      MoveToEnd(key, e);
    }

    /** A key's entry, if it has one, is replaced by one at the recent end. */
    method MoveToEnd(key: string, e: CacheEntry)
      requires InRecencyOrder(entries, lastUse) && e.key == key
      requires forall i :: 0 <= i < |entries| ==> lastUse[entries[i].key] < ticks
      modifies this
      ensures InRecencyOrder(entries, lastUse) && entries == Without(old(entries), key) + [e]
      ensures forall i :: 0 <= i < |entries| ==> lastUse[entries[i].key] < ticks
      ensures Touched(old(lastUse), old(ticks), lastUse, ticks, key)
    {
      hide Without;
      WithoutFacts(entries, key, lastUse);
      var rest := Without(entries, key);
      forall i | 0 <= i < |rest|
        ensures lastUse[rest[i].key] < ticks
      {
        assert rest[i] in entries;
      }
      AppendKeepsOrder(rest, e, lastUse, ticks);
      entries := rest + [e];
      lastUse, ticks := lastUse[key := ticks], ticks + 1;
    }

    method Put(key: string, value: Row)
      requires Valid()
      modifies this
      ensures Valid()
      ensures entries == Last(Without(old(entries), key) + [Entry(key, 1, value)], capacity)
      ensures forall e :: e in entries ==> e == Entry(key, 1, value) || (e in old(entries) && e.key != key)
      ensures Touched(old(lastUse), old(ticks), lastUse, ticks, key)
    {
      hide Without, Find, InRecencyOrder;
      WithoutFacts(entries, key, lastUse);
      WithoutShorter(entries, key);
      MoveToEnd(key, Entry(key, 1, value));
      if |entries| > capacity {
        TailKeepsOrder(entries, lastUse, ticks);
        entries := entries[1..];
      }
    }

    method Invalidate(key: string)
      requires Valid()
      modifies this
      ensures Valid() && entries == Without(old(entries), key)
      ensures forall e :: e in entries <==> e in old(entries) && e.key != key
      ensures lastUse == old(lastUse) && ticks == old(ticks)
    {
      hide Without, Find;
      WithoutFacts(entries, key, lastUse);
      WithoutShorter(entries, key);
      ghost var before := entries;
      entries := Without(entries, key);
      forall i | 0 <= i < |entries|
        ensures lastUse[entries[i].key] < ticks
      {
        assert entries[i] in before;
      }
    }

    method Clear()
      requires Valid()
      modifies this
      ensures Valid() && entries == [] && lastUse == old(lastUse) && ticks == old(ticks)
    {
      entries := [];
    }
  }

  /** At most n entries, the most recent. */
  function Last(es: seq<CacheEntry>, n: nat): seq<CacheEntry> {
    if |es| > n then es[1..] else es
  }

  lemma TailKeepsOrder(es: seq<CacheEntry>, lastUse: map<string, nat>, ticks: nat)
    requires es != [] && InRecencyOrder(es, lastUse) && forall i :: 0 <= i < |es| ==> lastUse[es[i].key] < ticks
    ensures InRecencyOrder(es[1..], lastUse) && forall i :: 0 <= i < |es[1..]| ==> lastUse[es[1..][i].key] < ticks
    ensures forall e :: e in es[1..] ==> e in es
  {
  }

  lemma WithoutShorter(es: seq<CacheEntry>, key: string)
    ensures |Without(es, key)| <= |es|
    ensures Find(es, key) < |es| ==> |Without(es, key)| == |es| - 1
  {
  }

  // ----- the table alone -----

  /** Python's view of deleted_at: unset or zero. */
  predicate Present(row: Row) {
    row.deletedAt in {None, Some(0)}
  }

  /** What SELECT and the trash filter answer, without a cache. */
  function Select(rows: Rows, id: string, trashed: bool): Option<Row> {
    if id in rows && (trashed || Present(rows[id])) then Some(rows[id]) else None
  }

  /** The part of a name after its last slash. */
  function Basename(name: string): string {
    if name == "" || '/' !in name then name else Basename(name[1..])
  }

  function Suffix(name: string, prefix: string): string {
    if |name| <= |prefix| then "" else name[|prefix|..]
  }

  /** A live row's name with one folder prefix replaced by another. */
  function InFolder(row: Row, oldPrefix: string, newPrefix: string): Row {
    if row.deletedAt == None then row.(filename := newPrefix + Suffix(row.filename, oldPrefix)) else row
  }

  /** A live row moved into a folder, if it has a basename. */
  function InPrefix(row: Row, prefix: string): Row {
    if row.deletedAt == None && Basename(row.filename) != "" then row.(filename := prefix + Basename(row.filename))
    else row
  }

  function FolderCopy(row: Row, oldPrefix: string, newPrefix: string, now: nat): Row {
    Row(newPrefix + Suffix(row.filename, oldPrefix), row.content, now, 0, None)
  }

  /** A copy's name: the mark goes before the extension, except for a name that starts with a dot. */
  function CopyName(name: string, newName: Option<string>): string {
    if newName.Some? && newName.value != "" then newName.value
    else if '.' in name && name[0] != '.' then name[..LastDot(name)] + " (copy)" + name[LastDot(name)..]
    else name + " (copy)"
  }

  /** The mark stands before the last dot, if the name has one and does not start with it, else at the
    * end. */
  lemma CopyMarked(stem: string, extension: string)
    requires '.' !in extension && stem != "" && stem[0] != '.'
    ensures CopyName(stem + "." + extension, None) == stem + " (copy)." + extension
  {
    LastDotSplits(stem, extension);
  }

  lemma CopyMarkedAtEnd(name: string)
    requires '.' !in name || name[0] == '.'
    ensures CopyName(name, None) == name + " (copy)"
  {
  }

  datatype Op =
    | Get(id: string, trashed: bool)
    | Insert(id: string, row: Row)
    | Rename(id: string, name: string)
    | RenameFolder(matched: set<string>, oldPrefix: string, newPrefix: string)
    | Move(matched: set<string>, prefix: string)
    | SoftDelete(id: string, now: nat)
    | SoftDeleteFolder(matched: set<string>, now: nat)
    | Restore(id: string)
    | Remove(id: string)
    | PurgeTrash(cutoff: nat)
    | Copy(id: string, newId: string, newName: Option<string>, now: nat)
    | CopyFolder(sources: map<string, string>, oldPrefix: string, newPrefix: string, now: nat)   // new id -> source
    | Bump(id: string)

  /** The table after one operation.  A duplicate primary key fails and changes nothing. */
  function Applied(rows: Rows, op: Op): Rows {
    match op
    case Get(_, _) => rows
    case Insert(id, row) => if id in rows then rows else rows[id := row.(deletedAt := None)]
    case Rename(id, name) => if id in rows then rows[id := rows[id].(filename := name)] else rows
    case RenameFolder(matched, oldPrefix, newPrefix) =>
      map id | id in rows :: if id in matched then InFolder(rows[id], oldPrefix, newPrefix) else rows[id]
    case Move(matched, prefix) => map id | id in rows :: if id in matched then InPrefix(rows[id], prefix) else rows[id]
    case SoftDelete(id, now) => if id in rows && rows[id].deletedAt == None
        then rows[id := rows[id].(deletedAt := Some(now))] else rows
    case SoftDeleteFolder(matched, now) =>
      map id | id in rows :: if id in matched && rows[id].deletedAt == None then rows[id].(deletedAt := Some(now))
          else rows[id]
    case Restore(id) => if id in rows then rows[id := rows[id].(deletedAt := None)] else rows
    case Remove(id) => rows - {id}
    case PurgeTrash(cutoff) =>
      map id | id in rows && !(rows[id].deletedAt.Some? && rows[id].deletedAt.value < cutoff) :: rows[id]
    case Copy(id, newId, newName, now) =>
      if id in rows && rows[id].deletedAt == None && newId !in rows
      then rows[newId := Row(CopyName(rows[id].filename, newName), rows[id].content, now, 0, None)] else rows
    case CopyFolder(sources, oldPrefix, newPrefix, now) =>
      rows + map newId | newId in sources && newId !in rows && sources[newId] in rows &&
          rows[sources[newId]].deletedAt == None ::
               FolderCopy(rows[sources[newId]], oldPrefix, newPrefix, now)
    case Bump(id) => if id in rows then rows[id := rows[id].(downloaded := rows[id].downloaded + 1)] else rows
  }

  /** The rows a move selects, and those of them that cannot be moved. */
  function Matched(rows: Rows, matched: set<string>): set<string> {
    set id | id in rows && id in matched && rows[id].deletedAt == None
  }

  function NoBasename(rows: Rows, ids: set<string>): set<string> {
    set id | id in ids && id in rows && Basename(rows[id].filename) == ""
  }

  lemma NoneUnnamed(rows: Rows)
    ensures NoBasename(rows, {}) == {}
  {
  }

  lemma Unnamed(rows: Rows, ids: set<string>, id: string)
    requires id in rows && id !in ids
    ensures NoBasename(rows, ids + {id}) ==
      NoBasename(rows, ids) + if Basename(rows[id].filename) == "" then {id} else {}
    ensures id !in NoBasename(rows, ids)
  {
    hide Basename;
  }

  lemma MatchedRows(rows: Rows, matched: set<string>)
    ensures forall id :: id in Matched(rows, matched) ==> id in rows && rows[id].deletedAt == None
  {
  }

  lemma MovedAll(before: Rows, rows: Rows, matched: set<string>, prefix: string)
    requires rows.Keys == before.Keys
    requires forall id :: id in rows ==>
      rows[id] == if id in Matched(before, matched) then InPrefix(before[id], prefix) else before[id]
    ensures rows == Applied(before, Move(matched, prefix))
  {
    hide Basename;
    assert rows.Keys == Applied(before, Move(matched, prefix)).Keys;
  }

  /** Each matched live row is in the folder, under the last part of its name. */
  ghost predicate FilesMoved(before: Rows, after: Rows, matched: set<string>, prefix: string) {
    forall id, folder, base ::
      id in before && id in matched && InTheFolder(before[id], folder, base) && base != "" ==>
        id in after && after[id] == before[id].(filename := prefix + base)
  }

  predicate InTheFolder(row: Row, folder: string, base: string) {
    && row.deletedAt == None && row.filename == folder + base && '/' !in base
    && (folder == "" || folder[|folder| - 1] == '/')
  }

  lemma {:induction false} LastPart(folder: string, base: string)
    requires '/' !in base && (folder == "" || folder[|folder| - 1] == '/')
    ensures Basename(folder + base) == base
  {
    if folder == "" {
      assert folder + base == base;
    } else {
      LastPart(folder[1..], base);
      assert (folder + base)[1..] == folder[1..] + base;
      assert (folder + base)[|folder| - 1] == '/';
    }
  }

  lemma MoveMoves(before: Rows, matched: set<string>, prefix: string)
    ensures FilesMoved(before, Applied(before, Move(matched, prefix)), matched, prefix)
  {
    hide Basename;
    forall id, folder, base |
      id in before && id in matched && InTheFolder(before[id], folder, base) && base != ""
      ensures Applied(before, Move(matched, prefix))[id] == before[id].(filename := prefix + base)
    {
      LastPart(folder, base);
    }
  }

  /** Each matched live row has the new prefix for as many characters as the old one has. */
  ghost predicate FolderRenamed(before: Rows, after: Rows, matched: set<string>, oldPrefix: string, newPrefix: string) {
    forall id :: id in before && id in matched && before[id].deletedAt == None ==>
      var name := before[id].filename;
      && id in after
      && after[id] == before[id].(filename :=
           newPrefix + if |name| < |oldPrefix| then "" else name[|oldPrefix|..])
  }

  lemma RenameRenames(before: Rows, matched: set<string>, oldPrefix: string, newPrefix: string)
    ensures FolderRenamed(before, Applied(before, RenameFolder(matched, oldPrefix, newPrefix)), matched, oldPrefix,
      newPrefix)
  {
  }

  lemma FolderCopied(before: Rows, sources: map<string, string>, oldPrefix: string, newPrefix: string, now: nat)
    ensures var rows := Applied(before, CopyFolder(sources, oldPrefix, newPrefix, now));
            forall id :: id in rows && id !in before ==>
              && id in sources && sources[id] in before && before[sources[id]].deletedAt == None
              && var row := before[sources[id]];
                 var rest := if |row.filename| < |oldPrefix| then "" else row.filename[|oldPrefix|..];
                 rows[id] == Row(newPrefix + rest, row.content, now, 0, None)
  {
  }

  /** The ids copy_folder inserts. */
  function NewCopies(rows: Rows, sources: map<string, string>): set<string> {
    set newId | newId in sources && newId !in rows && sources[newId] in rows && rows[sources[newId]].deletedAt == None
  }

  lemma Copies(rows: Rows, sources: map<string, string>)
    ensures forall id :: id in NewCopies(rows, sources) ==> id !in rows && id in sources && sources[id] in rows
  {
  }

  lemma CopiedAll(before: Rows, rows: Rows, sources: map<string, string>, oldPrefix: string, newPrefix: string,
          now: nat)
    requires rows.Keys == before.Keys + NewCopies(before, sources)
    requires forall id :: id in before ==> rows[id] == before[id]
    requires forall id :: id in NewCopies(before, sources) ==>
      rows[id] == FolderCopy(before[sources[id]], oldPrefix, newPrefix, now)
    ensures rows == Applied(before, CopyFolder(sources, oldPrefix, newPrefix, now))
  {
    hide FolderCopy;
    assert rows.Keys == Applied(before, CopyFolder(sources, oldPrefix, newPrefix, now)).Keys;
  }

  /** The table after a history, and the answers of a history on the table alone. */
  function After(rows: Rows, ops: seq<Op>): Rows
    decreases |ops|
  {
    if ops == [] then rows else After(Applied(rows, ops[0]), ops[1..])
  }

  function Answers(rows: Rows, ops: seq<Op>): seq<Option<Row>>
    decreases |ops|
  {
    if ops == [] then []
    else (if ops[0].Get? then [Select(rows, ops[0].id, ops[0].trashed)] else []) +
         Answers(Applied(rows, ops[0]), ops[1..])
  }

  lemma GetChangesNothing(rows: Rows, id: string, trashed: bool)
    ensures Applied(rows, Get(id, trashed)) == rows
  {
  }

  // ----- what a history answers -----

  /** The number of answers given before the k-th operation. */
  function GetsBefore(ops: seq<Op>, k: nat): nat
    requires k <= |ops|
  {
    if k == 0 then 0 else GetsBefore(ops, k - 1) + if ops[k - 1].Get? then 1 else 0
  }

  lemma {:induction false} GetsAfterFirst(ops: seq<Op>, k: nat)
    requires 0 < k <= |ops|
    ensures GetsBefore(ops, k) == GetsBefore(ops[1..], k - 1) + if ops[0].Get? then 1 else 0
  {
    if k > 1 {
      GetsAfterFirst(ops, k - 1);
    }
  }

  lemma {:induction false} AnswerAt(rows: Rows, ops: seq<Op>, k: nat)
    requires k < |ops| && ops[k].Get?
    ensures GetsBefore(ops, k) < |Answers(rows, ops)|
    ensures Answers(rows, ops)[GetsBefore(ops, k)] == Select(After(rows, ops[..k]), ops[k].id, ops[k].trashed)
    decreases k
  {
    hide Applied, Select;
    if k > 0 {
      GetsAfterFirst(ops, k);
      AnswerAt(Applied(rows, ops[0]), ops[1..], k - 1);
      assert ops[..k][1..] == ops[1..][..k - 1];
    }
  }

  /** What the k-th operation, a get, is answered. */
  function AnswerTo(rows: Rows, ops: seq<Op>, k: nat): Option<Row>
    requires k < |ops| && ops[k].Get?
  {
    AnswerAt(rows, ops, k);
    Answers(rows, ops)[GetsBefore(ops, k)]
  }

  lemma {:induction false} AfterOneMore(rows: Rows, ops: seq<Op>, k: nat)
    requires k < |ops|
    ensures After(rows, ops[..k + 1]) == Applied(After(rows, ops[..k]), ops[k])
    decreases k
  {
    hide Applied;
    if k > 0 {
      AfterOneMore(Applied(rows, ops[0]), ops[1..], k - 1);
      assert ops[..k + 1][1..] == ops[1..][..k] && ops[..k][1..] == ops[1..][..k - 1];
    }
  }

  /** The id of a row that may come into being, and of one that may go. */
  predicate Creates(op: Op, id: string) {
    (op.Insert? && op.id == id) || (op.Copy? && op.newId == id) || (op.CopyFolder? && id in op.sources)
  }

  predicate Removes(op: Op, id: string) {
    op == Remove(id) || op.PurgeTrash?
  }

  /** An object soft-deleted at a time later than 0 is not found until it is restored, or removed and then
    * created again.  (A row deleted at time 0 counts as present.) */
  lemma {:induction false} HiddenInTrash(rows: Rows, ops: seq<Op>, d: nat, k: nat, id: string, now: nat)
    requires d < k < |ops| && ops[d] == SoftDelete(id, now) && now > 0 && ops[k] == Get(id, false)
    requires var before := After(rows, ops[..d]); id in before && before[id].deletedAt != Some(0)
    requires forall m :: d < m < k ==> ops[m] != Restore(id)
    requires forall l, m :: d < l < m < k && Removes(ops[l], id) ==> !Creates(ops[m], id)
    ensures AnswerTo(rows, ops, k) == None
  {
    hide After;
    AnswerAt(rows, ops, k);
    StaysTrashed(rows, ops, d, k, id, now);
  }

  lemma {:induction false} StaysTrashed(rows: Rows, ops: seq<Op>, d: nat, k: nat, id: string, now: nat)
    requires d < k <= |ops| && ops[d] == SoftDelete(id, now) && now > 0
    requires var before := After(rows, ops[..d]); id in before && before[id].deletedAt != Some(0)
    requires forall m :: d < m < k ==> ops[m] != Restore(id)
    requires forall l, m :: d < l < m < k && Removes(ops[l], id) ==> !Creates(ops[m], id)
    ensures var t := After(rows, ops[..k]);
            && (id in t ==> t[id].deletedAt.Some? && t[id].deletedAt.value > 0)
            && (id !in t ==> exists l :: d < l < k && Removes(ops[l], id))
    decreases k
  {
    hide After;
    AfterOneMore(rows, ops, k - 1);
    if d + 1 < k {
      StaysTrashed(rows, ops, d, k - 1, id, now);
      TrashedStep(After(rows, ops[..k - 1]), ops[k - 1], id);
      assert d < k - 1 < k;
    }
  }

  /** A row in the trash leaves it only by a restore, and the table only by a removal. */
  lemma TrashedStep(rows: Rows, op: Op, id: string)
    ensures var t := Applied(rows, op);
            && (id in rows && rows[id].deletedAt.Some? && id in t && op != Restore(id)
                ==> t[id].deletedAt == rows[id].deletedAt)
            && (id in rows && id !in t ==> Removes(op, id))
            && (id !in rows && id in t ==> Creates(op, id))
  {
    hide Basename, CopyName, FolderCopy;
  }

  /** The trash shows the row as it was, with the time of its deletion, as long as it is not restored,
    * renamed, counted, removed, or old enough to be purged. */
  lemma {:induction false} ShownInTrash(rows: Rows, ops: seq<Op>, d: nat, k: nat, id: string, now: nat)
    requires d < k < |ops| && ops[d] == SoftDelete(id, now) && ops[k] == Get(id, true)
    requires var before := After(rows, ops[..d]); id in before && before[id].deletedAt == None
    requires forall m :: d < m < k ==>
      && ops[m] !in {Restore(id), Bump(id), Remove(id)} && !(ops[m].Rename? && ops[m].id == id)
      && !(ops[m].PurgeTrash? && ops[m].cutoff > now)
    ensures AnswerTo(rows, ops, k) == Some(After(rows, ops[..d])[id].(deletedAt := Some(now)))
  {
    hide After;
    AnswerAt(rows, ops, k);
    StaysInTrash(rows, ops, d, k, id, now);
  }

  lemma {:induction false} StaysInTrash(rows: Rows, ops: seq<Op>, d: nat, k: nat, id: string, now: nat)
    requires d < k <= |ops| && ops[d] == SoftDelete(id, now)
    requires var before := After(rows, ops[..d]); id in before && before[id].deletedAt == None
    requires forall m :: d < m < k ==>
      && ops[m] !in {Restore(id), Bump(id), Remove(id)} && !(ops[m].Rename? && ops[m].id == id)
      && !(ops[m].PurgeTrash? && ops[m].cutoff > now)
    ensures var t := After(rows, ops[..k]);
            id in t && t[id] == After(rows, ops[..d])[id].(deletedAt := Some(now))
    decreases k
  {
    hide After, Basename, CopyName, FolderCopy;
    AfterOneMore(rows, ops, k - 1);
    if d + 1 < k {
      StaysInTrash(rows, ops, d, k - 1, id, now);
    }
  }

  /** How often a stretch of operations counts a download of id. */
  function Bumps(ops: seq<Op>, d: nat, k: nat, id: string): nat
    requires d <= k <= |ops|
    decreases k
  {
    if d == k then 0 else Bumps(ops, d, k - 1, id) + if ops[k - 1] == Bump(id) then 1 else 0
  }

  /** What an operation does that takes id out of the live rows. */
  predicate Discards(op: Op, id: string) {
    op == Remove(id) || (op.SoftDelete? && op.id == id) || (op.SoftDeleteFolder? && id in op.matched)
  }

  /** A live object is found, with its content and every download since counted, until it is discarded;
    * a restored one is live again. */
  lemma {:induction false} FoundWhileLive(rows: Rows, ops: seq<Op>, d: nat, k: nat, id: string, trashed: bool)
    requires d <= k < |ops| && ops[k] == Get(id, trashed)
    requires id in After(rows, ops[..d])
    requires After(rows, ops[..d])[id].deletedAt == None || (d < k && ops[d] == Restore(id))
    requires forall m :: d <= m < k ==> !Discards(ops[m], id)
    ensures var r, before := AnswerTo(rows, ops, k), After(rows, ops[..d])[id];
            && r.Some? && r.value.deletedAt == None
            && r.value.content == before.content && r.value.createdAt == before.createdAt
            && r.value.downloaded == before.downloaded + Bumps(ops, d, k, id)
  {
    hide After;
    AnswerAt(rows, ops, k);
    StaysLive(rows, ops, d, k, id);
  }

  lemma {:induction false} StaysLive(rows: Rows, ops: seq<Op>, d: nat, k: nat, id: string)
    requires d <= k <= |ops| && id in After(rows, ops[..d])
    requires After(rows, ops[..d])[id].deletedAt == None || (d < k && ops[d] == Restore(id))
    requires forall m :: d <= m < k ==> !Discards(ops[m], id)
    ensures var t, before := After(rows, ops[..k]), After(rows, ops[..d])[id];
            && id in t && t[id].deletedAt == None
            && t[id].content == before.content && t[id].createdAt == before.createdAt
            && t[id].downloaded == before.downloaded + Bumps(ops, d, k, id)
    decreases k
  {
    hide After, Basename, CopyName, FolderCopy;
    if d < k {
      AfterOneMore(rows, ops, k - 1);
      if d + 1 < k || After(rows, ops[..d])[id].deletedAt == None {
        StaysLive(rows, ops, d, k - 1, id);
      }
    }
  }

  /** Restoring undoes a soft delete of a live row, and only that. */
  lemma SoftDeleteRestore(rows: Rows, id: string, now: nat)
    requires id in rows
    ensures Applied(Applied(rows, SoftDelete(id, now)), Restore(id)) == rows <==> rows[id].deletedAt == None
  {
    var back := Applied(Applied(rows, SoftDelete(id, now)), Restore(id));
    assert back[id].deletedAt == None;
    if rows[id].deletedAt == None {
      assert back[id] == rows[id];
    }
  }

  // ----- table and cache together -----

  class Database {
    const cache: ObjectLRU
    var rows: Rows

    /** Every cached entry is a row of the table that is not in the trash. */
    ghost predicate Valid()
      reads this, cache
    {
      cache.Valid() && forall e :: e in cache.entries ==> e.key in rows && rows[e.key] == e.value && Present(e.value)
    }

    constructor (capacity: nat)
      ensures Valid() && fresh(cache) && rows == map[] && cache.capacity == capacity
    {
      cache := new ObjectLRU(capacity);
      rows := map[];
    }

    /** get_object answers what the table alone would. */
    method GetObject(id: string, trashed: bool) returns (r: Option<Row>)
      requires Valid()
      modifies cache
      ensures Valid()
      ensures r == if id in rows && (trashed || rows[id].deletedAt == None || rows[id].deletedAt == Some(0))
                   then Some(rows[id]) else None
    {
      hide ObjectLRU.Valid, Without, Last;
      if !trashed {
        var cached := cache.Get(id);
        if cached.Some? && Present(cached.value) {
          return cached;
        }
      }
      if id !in rows {
        return None;
      }
      var row := rows[id];
      if !trashed && !Present(row) {
        return None;
      }
      if Present(row) {
        cache.Put(id, row);
      }
      r := Some(row);
    }

    /** insert_object: false for a duplicate id; a new row is cached at once. */
    method InsertObject(id: string, row: Row) returns (ok: bool)
      requires Valid()
      modifies this, cache
      ensures Valid() && rows == Applied(old(rows), Insert(id, row)) && (ok <==> id !in old(rows))
    {
      hide ObjectLRU.Valid, Without, Last;
      if id in rows {
        return false;
      }
      rows := rows[id := row.(deletedAt := None)];
      cache.Put(id, row.(deletedAt := None));
      ok := true;
    }

    /** bump_downloads: the counter moves in the table and in the cached copy. */
    method BumpDownloads(id: string)
      requires Valid()
      modifies this, cache
      ensures Valid() && rows == Applied(old(rows), Bump(id))
    {
      hide ObjectLRU.Valid, Without, Last;
      if id in rows {
        rows := rows[id := rows[id].(downloaded := rows[id].downloaded + 1)];
      }
      var cached := cache.Get(id);
      if cached.Some? {
        cache.Put(id, cached.value.(downloaded := cached.value.downloaded + 1));
      }
    }

    /** rename_object. */
    method RenameObject(id: string, name: string) returns (ok: bool)
      requires Valid()
      modifies this, cache
      ensures Valid() && rows == Applied(old(rows), Rename(id, name)) && (ok <==> id in old(rows))
    {
      hide ObjectLRU.Valid, Without;
      cache.Invalidate(id);
      ok := id in rows;
      if ok {
        rows := rows[id := rows[id].(filename := name)];
      }
    }

    /** soft_delete. */
    method SoftDeleteObject(id: string, now: nat) returns (ok: bool)
      requires Valid()
      modifies this, cache
      ensures Valid() && rows == Applied(old(rows), SoftDelete(id, now))
      ensures ok <==> id in old(rows) && old(rows)[id].deletedAt == None
    {
      hide ObjectLRU.Valid, Without;
      cache.Invalidate(id);
      ok := id in rows && rows[id].deletedAt == None;
      if ok {
        rows := rows[id := rows[id].(deletedAt := Some(now))];
      }
    }

    /** restore_object. */
    method RestoreObject(id: string) returns (ok: bool)
      requires Valid()
      modifies this, cache
      ensures Valid() && rows == Applied(old(rows), Restore(id))
      ensures ok <==> id in old(rows) && old(rows)[id].deletedAt.Some?
    {
      hide ObjectLRU.Valid, Without;
      cache.Invalidate(id);
      ok := id in rows && rows[id].deletedAt.Some?;
      if ok {
        rows := rows[id := rows[id].(deletedAt := None)];
      } else if id in rows {
        assert rows[id := rows[id].(deletedAt := None)] == rows;
      }
    }

    /** delete_object. */
    method DeleteObject(id: string) returns (ok: bool)
      requires Valid()
      modifies this, cache
      ensures Valid() && rows == Applied(old(rows), Remove(id)) && (ok <==> id in old(rows))
    {
      hide ObjectLRU.Valid, Without;
      cache.Invalidate(id);
      ok := id in rows;
      rows := rows - {id};
    }

    /** rename_folder: the cache is cleared, then the matched live rows are renamed one by one. */
    method RenameFolderRows(matched: set<string>, oldPrefix: string, newPrefix: string) returns (count: nat)
      requires Valid()
      modifies this, cache
      ensures Valid() && rows == Applied(old(rows), RenameFolder(matched, oldPrefix, newPrefix))
      ensures count == |set id | id in old(rows) && id in matched && old(rows)[id].deletedAt == None|
      ensures FolderRenamed(old(rows), rows, matched, oldPrefix, newPrefix)
    {
      hide ObjectLRU.Valid, Suffix, Present, FolderRenamed;
      cache.Clear();
      ghost var before := rows;
      var found := set id | id in rows && id in matched && rows[id].deletedAt == None;
      var left := found;
      count := 0;
      while left != {}
        invariant cache.Valid() && cache.entries == [] && left <= found && count + |left| == |found|
        invariant rows.Keys == before.Keys
        invariant forall id :: id in rows ==> rows[id] == if id in found && id !in left
            then InFolder(before[id], oldPrefix, newPrefix) else before[id]
        decreases left
      {
        var id :| id in left;
        rows := rows[id := rows[id].(filename := newPrefix + Suffix(rows[id].filename, oldPrefix))];
        left, count := left - {id}, count + 1;
      }
      assert rows == Applied(before, RenameFolder(matched, oldPrefix, newPrefix));
      RenameRenames(before, matched, oldPrefix, newPrefix);
    }

    /** move_objects_to_prefix: matched live rows without a basename are skipped, the others counted, also
      * those that are already there. */
    method MoveObjects(matched: set<string>, prefix: string) returns (count: nat, skipped: set<string>)
      requires Valid()
      modifies this, cache
      ensures Valid() && rows == Applied(old(rows), Move(matched, prefix))
      ensures skipped == NoBasename(old(rows), Matched(old(rows), matched))
      ensures count + |skipped| == |Matched(old(rows), matched)|
      ensures FilesMoved(old(rows), rows, matched, prefix)
    {
      hide ObjectLRU.Valid, Basename, Present, InPrefix, Matched, NoBasename, FilesMoved;
      cache.Clear();
      ghost var before := rows;
      var left := Matched(rows, matched);
      ghost var found := left;
      count, skipped := 0, {};
      NoneUnnamed(before);
      assert found - left == {};
      MatchedRows(before, matched);
      while left != {}
        invariant cache.Valid() && cache.entries == [] && left <= found && rows.Keys == before.Keys
        invariant forall id :: id in rows ==>
          rows[id] == if id in found && id !in left then InPrefix(before[id], prefix) else before[id]
        invariant skipped == NoBasename(before, found - left) && count + |skipped| + |left| == |found|
        decreases left
      {
        var id :| id in left;
        Unnamed(before, found - left, id);
        assert found - (left - {id}) == (found - left) + {id};
        var moved := MoveRow(id, prefix);
        if moved {
          count := count + 1;
        } else {
          skipped := skipped + {id};
        }
        left := left - {id};
      }
      assert found - {} == found;
      MovedAll(before, rows, matched, prefix);
      MoveMoves(before, matched, prefix);
    }

    /** The loop body: false for a row without a basename. */
    method MoveRow(id: string, prefix: string) returns (moved: bool)
      requires id in rows && rows[id].deletedAt == None
      modifies this`rows
      ensures rows == old(rows)[id := InPrefix(old(rows)[id], prefix)]
      ensures moved <==> Basename(old(rows)[id].filename) != ""
    {
      hide Basename;
      var base := Basename(rows[id].filename);
      moved := base != "";
      assert rows[id := rows[id]] == rows;
      if moved {
        var name := prefix + base;
        if name != rows[id].filename {
          rows := rows[id := rows[id].(filename := name)];
        }
      }
    }

    /** soft_delete_folder. */
    method SoftDeleteFolderRows(matched: set<string>, now: nat)
      requires Valid()
      modifies this, cache
      ensures Valid() && rows == Applied(old(rows), SoftDeleteFolder(matched, now))
    {
      cache.Clear();
      rows := map id | id in rows :: if id in matched && rows[id].deletedAt == None
          then rows[id].(deletedAt := Some(now)) else rows[id];
    }

    /** purge_expired_trash: the ids it drops. */
    method PurgeExpiredTrash(cutoff: nat) returns (ids: set<string>)
      requires Valid()
      modifies this, cache
      ensures Valid() && rows == Applied(old(rows), PurgeTrash(cutoff)) && ids == old(rows).Keys - rows.Keys
    {
      cache.Clear();
      ids := set id | id in rows && rows[id].deletedAt.Some? && rows[id].deletedAt.value < cutoff;
      rows := rows - ids;
      assert rows == Applied(old(rows), PurgeTrash(cutoff));
    }

    /** copy_object: a new row for the same chunks, under a generated id. */
    method CopyObject(id: string, newId: string, newName: Option<string>, now: nat) returns (ok: bool)
      requires Valid()
      modifies this
      ensures Valid() && rows == Applied(old(rows), Copy(id, newId, newName, now))
      ensures ok <==> id in old(rows) && old(rows)[id].deletedAt == None && newId !in old(rows)
      ensures ok ==> newId in rows && rows[newId] == Row(rows[newId].filename, old(rows)[id].content, now, 0, None)
      ensures ok && newName.Some? && newName.value != "" ==> rows[newId].filename == newName.value
      ensures ok && newName in {None, Some("")} ==> rows[newId].filename == CopyName(old(rows)[id].filename, None)
    {
      ok := id in rows && rows[id].deletedAt == None && newId !in rows;
      if ok {
        rows := rows[newId := Row(CopyName(rows[id].filename, newName), rows[id].content, now, 0, None)];
      }
    }

    /** copy_folder; sources gives each generated id its source row. */
    method CopyFolderRows(sources: map<string, string>, oldPrefix: string, newPrefix: string, now: nat)
      requires Valid()
      modifies this
      ensures Valid() && rows == Applied(old(rows), CopyFolder(sources, oldPrefix, newPrefix, now))
      ensures forall id :: id in old(rows) ==> id in rows && rows[id] == old(rows)[id]
      ensures forall id :: id in rows && id !in old(rows) ==>
        && id in sources && sources[id] in old(rows) && old(rows)[sources[id]].deletedAt == None
        && var row := old(rows)[sources[id]];
           var rest := if |row.filename| < |oldPrefix| then "" else row.filename[|oldPrefix|..];
           rows[id] == Row(newPrefix + rest, row.content, now, 0, None)
    {
      hide ObjectLRU.Valid, FolderCopy, Present, Applied, NewCopies;
      ghost var before := rows;
      var found := NewCopies(rows, sources);
      Copies(rows, sources);
      var left := found;
      while left != {}
        invariant left <= found && rows.Keys == before.Keys + (found - left)
        invariant forall id :: id in before ==> rows[id] == before[id]
        invariant forall id :: id in found && id !in left ==>
          rows[id] == FolderCopy(before[sources[id]], oldPrefix, newPrefix, now)
        decreases left
      {
        var newId :| newId in left;
        rows := rows[newId := FolderCopy(rows[sources[newId]], oldPrefix, newPrefix, now)];
        left := left - {newId};
      }
      CopiedAll(before, rows, sources, oldPrefix, newPrefix, now);
      FolderCopied(before, sources, oldPrefix, newPrefix, now);
    }

    /** One operation, as the routes call it. */
    method Perform(op: Op) returns (answer: seq<Option<Row>>)
      requires Valid()
      modifies this, cache
      ensures Valid() && rows == Applied(old(rows), op)
      ensures !op.Get? ==> answer == []
      ensures op.Get? ==>
        var found := op.id in old(rows) && (op.trashed || old(rows)[op.id].deletedAt in {None, Some(0)});
        answer == [if found then Some(old(rows)[op.id]) else None]
    {
      hide ObjectLRU.Valid, Applied, Select, Present;
      answer := [];
      match op
      case Get(id, trashed) =>
        var r := GetObject(id, trashed);
        GetChangesNothing(rows, id, trashed);
        answer := [r];
      case Insert(id, row) => var _ := InsertObject(id, row);
      case Rename(id, name) => var _ := RenameObject(id, name);
      case RenameFolder(matched, from, to) => var _ := RenameFolderRows(matched, from, to);
      case Move(matched, prefix) => var _, _ := MoveObjects(matched, prefix);
      case SoftDelete(id, now) => var _ := SoftDeleteObject(id, now);
      case SoftDeleteFolder(matched, now) => SoftDeleteFolderRows(matched, now);
      case Restore(id) => var _ := RestoreObject(id);
      case Remove(id) => var _ := DeleteObject(id);
      case PurgeTrash(cutoff) => var _ := PurgeExpiredTrash(cutoff);
      case Copy(id, newId, name, now) => var _ := CopyObject(id, newId, name, now);
      case CopyFolder(sources, from, to, now) => CopyFolderRows(sources, from, to, now);
      case Bump(id) => BumpDownloads(id);
    }

    /** Over any history of operations every answer is the one the table alone would give. */
    method Serve(ops: seq<Op>) returns (answers: seq<Option<Row>>)
      requires Valid()
      modifies this, cache
      ensures Valid() && rows == After(old(rows), ops) && answers == Answers(old(rows), ops)
    {
      hide Valid, Applied, Answers, After;
      answers := [];
      Whole(rows, ops);
      for k := 0 to |ops|
        invariant Valid()
        invariant After(rows, ops[k..]) == After(old(rows), ops)
        invariant answers + Answers(rows, ops[k..]) == Answers(old(rows), ops)
      {
        OneMore(rows, ops, k, answers);
        var answer := Perform(ops[k]);
        answers := answers + answer;
      }
      Whole(rows, ops);
    }
  }

  /** One operation of a history, on the table alone. */
  lemma OneMore(rows: Rows, ops: seq<Op>, k: nat, answers: seq<Option<Row>>)
    requires k < |ops|
    ensures After(rows, ops[k..]) == After(Applied(rows, ops[k]), ops[k + 1..])
    ensures var answer := if ops[k].Get? then [Select(rows, ops[k].id, ops[k].trashed)] else [];
            answers + Answers(rows, ops[k..]) == (answers + answer) + Answers(Applied(rows, ops[k]), ops[k + 1..])
  {
    hide Applied, Select;
    assert ops[k..][0] == ops[k] && ops[k..][1..] == ops[k + 1..];
    var answer := if ops[k].Get? then [Select(rows, ops[k].id, ops[k].trashed)] else [];
    var later := Answers(Applied(rows, ops[k]), ops[k + 1..]);
    assert answers + (answer + later) == (answers + answer) + later;
  }

  lemma Whole(rows: Rows, ops: seq<Op>)
    ensures ops[0..] == ops && ops[|ops|..] == [] && After(rows, []) == rows && Answers(rows, []) == []
  {
  }
}
