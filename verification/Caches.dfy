/** DiskLRU and ChunkMicroCache of src/anbar/cache.py.  Time is a parameter; a path is a number. */
module Caches {
  import opened Bytes
  import opened Lru

  type Key = (string, nat)
  type ChunkEntry = Entry<Key, (seq<Byte>, int)>

  /** The in-memory cache of recently fetched chunks. */
  class ChunkMicroCache {
    const maxBytes: nat
    const ttl: nat
    var entries: seq<ChunkEntry>
    var used: int
    ghost var lastUse: map<Key, nat>
    ghost var ticks: nat

    ghost predicate Valid()
      reads this
    {
      && Consistent(entries, used, maxBytes, lastUse, ticks)
      && forall e :: e in entries ==> e.size == |e.value.0|
    }

    constructor (maxBytes: nat, ttl: nat)
      ensures Valid() && entries == [] && this.maxBytes == maxBytes && this.ttl == ttl
    {
      this.maxBytes, this.ttl := maxBytes, ttl;
      entries, used := [], 0;
      lastUse, ticks := map[], 0;
    }

    /** get: a hit only for an unexpired entry, which becomes the most recent; an expired one goes. */
    method Get(key: Key, now: int) returns (r: Option<seq<Byte>>)
      requires Valid()
      modifies this
      ensures Valid()
      ensures var i := Find(old(entries), key);
              if i == |old(entries)| then r == None && entries == old(entries)
              else if now - old(entries)[i].value.1 > ttl then r == None && entries == Without(old(entries), key)
              else r == Some(old(entries)[i].value.0) && entries == Without(old(entries), key) + [old(entries)[i]]
      ensures if r.Some? then Touched(old(lastUse), old(ticks), lastUse, ticks, key)
              else lastUse == old(lastUse) && ticks == old(ticks)
    {
      hide Consistent, Without;
      var i := Find(entries, key);
      if i == |entries| {
        return None;
      }
      var e := entries[i];
      assert e in entries;
      RemoveConsistent(entries, key, used, maxBytes, lastUse, ticks);
      if now - e.value.1 > ttl {
        entries := Without(entries, key);
        used := used - |e.value.0|;
        return None;
      }
      WithinBudget(entries, used, maxBytes, lastUse, ticks);
      AppendConsistent(Without(entries, key), e, used - e.size, maxBytes, lastUse, ticks);
      entries := Without(entries, key) + [e];
      lastUse, ticks := lastUse[key := ticks], ticks + 1;
      r := Some(e.value.0);
    }

    /** _evict_for. */
    method EvictFor(need: nat)
      requires Valid()
      modifies this
      ensures Valid() && entries == Evict(old(entries), need, maxBytes)
      ensures lastUse == old(lastUse) && ticks == old(ticks)
      ensures need <= maxBytes ==> used + need <= maxBytes
    {
      while entries != [] && used + need > maxBytes
        invariant Valid() && lastUse == old(lastUse) && ticks == old(ticks)
        invariant Evict(entries, need, maxBytes) == Evict(old(entries), need, maxBytes)
      {
        used := used - entries[0].size;
        entries := entries[1..];
      }
    }

    /** put: replaces the entry of the key, then evicts, then admits; oversized chunks and a disabled
      * cache change nothing. */
    method Put(key: Key, data: seq<Byte>, now: int)
      requires Valid()
      modifies this
      ensures Valid()
      ensures entries == if maxBytes == 0 || |data| > maxBytes then old(entries)
                         else Evict(Without(old(entries), key), |data|, maxBytes) + [Entry(key, |data|, (data, now))]
      ensures if 0 < maxBytes && |data| <= maxBytes then Touched(old(lastUse), old(ticks), lastUse, ticks, key)
              else lastUse == old(lastUse) && ticks == old(ticks)
    {
      hide Consistent, Evict, HasKey, Without, Touched;
      if maxBytes == 0 || |data| > maxBytes {
        return;
      }
      RemoveKey(key);
      EvictMembers(entries, |data|, maxBytes);
      EvictFor(|data|);
      Admit(key, data, now);
    }

    /** The entry of a key goes, if there is one. */
    method RemoveKey(key: Key)
      requires Valid()
      modifies this
      ensures Valid() && entries == Without(old(entries), key) && !HasKey(entries, key)
      ensures forall e :: e in entries <==> e in old(entries) && e.key != key
      ensures lastUse == old(lastUse) && ticks == old(ticks)
    {
      hide Consistent, Without;
      var i := Find(entries, key);
      if i < |entries| {
        assert entries[i] in entries;
        RemoveConsistent(entries, key, used, maxBytes, lastUse, ticks);
        used := used - |entries[i].value.0|;
        entries := Without(entries, key);
      } else {
        NotThere(entries, key);
      }
    }

    /** The last lines of put. */
    method Admit(key: Key, data: seq<Byte>, now: int)
      requires Valid() && !HasKey(entries, key) && used + |data| <= maxBytes
      modifies this
      ensures Valid() && entries == old(entries) + [Entry(key, |data|, (data, now))]
      ensures Touched(old(lastUse), old(ticks), lastUse, ticks, key)
    {
      hide Consistent, HasKey;
      var e := Entry(key, |data|, (data, now));
      AppendConsistent(entries, e, used, maxBytes, lastUse, ticks);
      entries := entries + [e];
      used := used + |data|;
      lastUse, ticks := lastUse[key := ticks], ticks + 1;
    }

    /** remove_object: exactly the chunks of that object go. */
    method RemoveObject(obj: string)
      requires Valid()
      modifies this
      ensures Valid()
      ensures forall e :: e in entries <==> e in old(entries) && e.key.0 != obj
      ensures lastUse == old(lastUse) && ticks == old(ticks)
    {
      hide Consistent, Without;
      var before := entries;
      for i := 0 to |before|
        invariant Valid()
        invariant lastUse == old(lastUse) && ticks == old(ticks)
        invariant forall e :: e in entries <==> e in before && (e.key.0 != obj || e.key !in KeysOf(before[..i]))
      {
        var key := before[i].key;
        assert KeysOf(before[..i + 1]) == KeysOf(before[..i]) + {key};
        if key.0 == obj {
          RemoveKey(key);
        }
      }
      assert before[..|before|] == before;
    }
  }

  function KeysOf(es: seq<ChunkEntry>): set<Key> {
    set e | e in es :: e.key
  }

  lemma WithinBudget<K, V>(es: seq<Entry<K, V>>, used: int, budget: nat, lastUse: map<K, nat>, ticks: nat)
    requires Consistent(es, used, budget, lastUse, ticks)
    ensures used <= budget
  {
  }

  // ----- whole objects as temporary files -----

  type FileEntry = Entry<string, nat>

  /** The cache directory: the files that exist.  Anything may remove files from it. */
  class Disk {
    var content: map<nat, seq<Byte>>
    var nextPath: nat

    constructor ()
      ensures content == map[] && nextPath == 0
    {
      content, nextPath := map[], 0;
    }

    /** os.unlink, ignoring a missing file. */
    method Unlink(path: nat)
      modifies this`content
      ensures content == old(content) - {path}
    {
      content := content - {path};
    }
  }

  function Paths(es: seq<FileEntry>): set<nat> {
    set e | e in es :: e.value
  }

  class DiskLRU {
    const disk: Disk
    const maxBytes: nat
    var entries: seq<FileEntry>
    var used: int
    ghost var lastUse: map<string, nat>
    ghost var ticks: nat
    ghost var pending: set<nat>   // handed out by NewEntryPath, not yet committed or unlinked

    /** Entries own distinct files, and the directory holds nothing but their files and pending ones. */
    ghost predicate Valid()
      reads this, disk
    {
      && Consistent(entries, used, maxBytes, lastUse, ticks)
      && (forall e, f :: e in entries && f in entries && e.value == f.value ==> e == f)
      && (forall p :: p in Paths(entries) + pending ==> p < disk.nextPath)
      && Paths(entries) !! pending
      && disk.content.Keys <= Paths(entries) + pending
    }

    constructor (maxBytes: nat)
      ensures Valid() && fresh(disk) && entries == [] && pending == {} && this.maxBytes == maxBytes
    {
      disk := new Disk();
      this.maxBytes := maxBytes;
      entries, used := [], 0;
      lastUse, ticks, pending := map[], 0, {};
    }

    /** new_entry_path: an empty temporary file under a fresh name. */
    method NewEntryPath() returns (path: nat)
      requires Valid()
      modifies this`pending, disk
      ensures Valid() && path !in old(pending) && path !in Paths(entries) && path !in old(disk.content)
      ensures pending == old(pending) + {path} && disk.content == old(disk.content)[path := []]
      ensures path == old(disk.nextPath) && disk.nextPath == old(disk.nextPath) + 1
    {
      path := disk.nextPath;
      disk.nextPath := disk.nextPath + 1;
      disk.content := disk.content[path := []];
      pending := pending + {path};
    }

    /** Removes the entry at the head or of a key, with its file. */
    method Forget(i: nat)
      requires Valid() && i < |entries| && Find(entries, entries[i].key) == i
      modifies this`entries, this`used, disk`content
      ensures Valid() && entries == Without(old(entries), old(entries)[i].key)
      ensures used == old(used) - old(entries)[i].size && !HasKey(entries, old(entries)[i].key)
      ensures disk.content == old(disk.content) - {old(entries)[i].value}
      ensures Paths(entries) == Paths(old(entries)) - {old(entries)[i].value}
      ensures old(entries)[i].value in Paths(old(entries))
    {
      hide Consistent;
      var e := entries[i];
      assert e in entries;
      RemoveConsistent(entries, e.key, used, maxBytes, lastUse, ticks);
      ghost var before := entries;
      entries := Without(entries, e.key);
      used := used - e.size;
      disk.Unlink(e.value);
      assert Paths(entries) == Paths(before) - {e.value} by {
        assert e !in entries;
      }
    }

    /** get: the path of the entry, which becomes the most recent; an entry whose file was removed from
      * outside is dropped and counts as a miss. */
    method Get(obj: string) returns (r: Option<nat>)
      requires Valid()
      modifies this`entries, this`used, this`lastUse, this`ticks, disk`content
      ensures Valid()
      ensures var i := Find(old(entries), obj);
              if i == |old(entries)| then r == None && entries == old(entries) && disk.content == old(disk.content)
              else
                var e := old(entries)[i];
                if e.value !in old(disk.content) then
                  r == None && entries == Without(old(entries), obj) && disk.content == old(disk.content)
                else
                  && r == Some(e.value) && e.value in disk.content && disk.content == old(disk.content)
                  && entries == Without(old(entries), obj) + [e]
      ensures if r.Some? then Touched(old(lastUse), old(ticks), lastUse, ticks, obj)
              else lastUse == old(lastUse) && ticks == old(ticks)
    {
      hide Consistent, Without;
      var i := Find(entries, obj);
      if i == |entries| {
        return None;
      }
      var e := entries[i];
      assert e in entries;
      if e.value !in disk.content {
        Forget(i);
        return None;
      }
      RemoveConsistent(entries, obj, used, maxBytes, lastUse, ticks);
      WithinBudget(entries, used, maxBytes, lastUse, ticks);
      AppendConsistent(Without(entries, obj), e, used - e.size, maxBytes, lastUse, ticks);
      SamePaths(entries, Without(entries, obj) + [e]);
      entries := Without(entries, obj) + [e];
      lastUse, ticks := lastUse[obj := ticks], ticks + 1;
      r := Some(e.value);
    }

    /** _evict_for. */
    method EvictFor(need: nat)
      requires Valid()
      modifies this`entries, this`used, disk`content
      ensures Valid() && entries == Evict(old(entries), need, maxBytes)
      ensures need <= maxBytes ==> used + need <= maxBytes
      ensures disk.content == old(disk.content) - (Paths(old(entries)) - Paths(entries))
    {
      hide Consistent, Evict, Without, Paths;
      while entries != [] && used + need > maxBytes
        invariant Valid() && Paths(entries) <= Paths(old(entries))
        invariant Evict(entries, need, maxBytes) == Evict(old(entries), need, maxBytes)
        invariant disk.content == old(disk.content) - (Paths(old(entries)) - Paths(entries))
        decreases |entries|
      {
        EvictStep(entries, need, used, maxBytes, lastUse, ticks);
        Forget(0);
      }
      EvictStep(entries, need, used, maxBytes, lastUse, ticks);
    }

    /** add: commits a filled temporary file.  The old entries make room first; only then does an
      * earlier entry of the same object go.  No file is left behind on any path. */
    method Add(obj: string, path: nat, size: nat) returns (committed: bool)
      requires Valid() && path in pending
      modifies this, disk`content
      ensures Valid() && pending == old(pending) - {path}
      ensures committed <==> size <= maxBytes
      ensures !committed ==> entries == old(entries) && disk.content == old(disk.content) - {path}
      ensures committed ==>
        && entries == Without(Evict(old(entries), size, maxBytes), obj) + [Entry(obj, size, path)]
        && disk.content == old(disk.content) - (Paths(old(entries)) - Paths(entries))
      ensures if committed then Touched(old(lastUse), old(ticks), lastUse, ticks, obj)
              else lastUse == old(lastUse) && ticks == old(ticks)
    {
      hide Consistent, Evict, Without;
      if size > maxBytes {
        disk.Unlink(path);
        pending := pending - {path};
        return false;
      }
      EvictFor(size);
      Remove(obj);
      Insert(obj, path, size);
      committed := true;
    }

    /** The last lines of add. */
    method Insert(obj: string, path: nat, size: nat)
      requires Valid() && path in pending && !HasKey(entries, obj) && used + size <= maxBytes
      modifies this
      ensures Valid() && pending == old(pending) - {path}
      ensures entries == old(entries) + [Entry(obj, size, path)] && Paths(entries) == Paths(old(entries)) + {path}
      ensures Touched(old(lastUse), old(ticks), lastUse, ticks, obj)
    {
      hide Consistent;
      ghost var kept := entries;
      AppendConsistent(entries, Entry(obj, size, path), used, maxBytes, lastUse, ticks);
      entries := entries + [Entry(obj, size, path)];
      used := used + size;
      lastUse, ticks := lastUse[obj := ticks], ticks + 1;
      pending := pending - {path};
      assert Paths(entries) == Paths(kept) + {path};
    }

    /** remove: the entry and its file go. */
    method Remove(obj: string)
      requires Valid()
      modifies this`entries, this`used, disk`content
      ensures Valid() && entries == Without(old(entries), obj) && !HasKey(entries, obj) && used <= old(used)
      ensures Paths(entries) <= Paths(old(entries))
      ensures disk.content == old(disk.content) - (Paths(old(entries)) - Paths(entries))
    {
      hide Consistent, Without;
      var i := Find(entries, obj);
      if i < |entries| {
        Forget(i);
      } else {
        NotThere(entries, obj);
      }
    }

    /** A caller gives a temporary file up instead of committing it. */
    method Discard(path: nat)
      requires Valid() && path in pending
      modifies this`pending, disk`content
      ensures Valid() && pending == old(pending) - {path} && disk.content == old(disk.content) - {path}
    {
      disk.Unlink(path);
      pending := pending - {path};
    }

    /** A caller appends bytes to the temporary file it is filling, which may have been removed. */
    method Write(path: nat, data: seq<Byte>)
      requires Valid() && path in pending
      modifies disk`content
      ensures Valid()
      ensures disk.content == if path in old(disk.content)
          then old(disk.content)[path := old(disk.content[path]) + data]
                              else old(disk.content)
    {
      if path in disk.content {
        disk.content := disk.content[path := disk.content[path] + data];
      }
    }

    /** Files may disappear from the directory at any time. */
    method PruneExternally(gone: set<nat>)
      requires Valid()
      modifies disk`content
      ensures Valid() && disk.content == old(disk.content) - gone
    {
      disk.content := disk.content - gone;
    }
  }

  lemma SamePaths(es: seq<FileEntry>, fs: seq<FileEntry>)
    requires forall e :: e in es <==> e in fs
    ensures Paths(es) == Paths(fs)
  {
  }

  lemma NotThere<K, V>(es: seq<Entry<K, V>>, key: K)
    requires Find(es, key) == |es|
    ensures Without(es, key) == es && !HasKey(es, key)
    ensures forall e :: e in es ==> e.key != key
  {
  }
}
