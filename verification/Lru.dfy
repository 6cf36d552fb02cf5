/** What the caches of src/anbar/cache.py and src/anbar/db.py share: an ordered dictionary is the
  * sequence of its entries, least recently used first. */
module Lru {

  datatype Entry<+K, +V> = Entry(key: K, size: nat, value: V)

  function Total<K, V>(es: seq<Entry<K, V>>): nat {
    if es == [] then 0 else es[0].size + Total(es[1..])
  }

  /** The position of a key, or the length. */
  function Find<K(==), V>(es: seq<Entry<K, V>>, key: K): (i: nat)
    ensures i <= |es|
    ensures i < |es| ==> es[i].key == key
    ensures forall j :: 0 <= j < i ==> es[j].key != key
  {
    if es == [] || es[0].key == key then 0 else 1 + Find(es[1..], key)
  }

  predicate HasKey<K(==), V>(es: seq<Entry<K, V>>, key: K) {
    Find(es, key) < |es|
  }

  function Drop<K, V>(es: seq<Entry<K, V>>, i: nat): (r: seq<Entry<K, V>>)
    requires i < |es|
    ensures |r| == |es| - 1
  {
    es[..i] + es[i + 1..]
  }

  /** es without the entry of a key, if it has one. */
  function Without<K(==), V>(es: seq<Entry<K, V>>, key: K): seq<Entry<K, V>> {
    if Find(es, key) < |es| then Drop(es, Find(es, key)) else es
  }

  /** The eviction loop: drop from the old end until need more bytes fit. */
  function Evict<K, V>(es: seq<Entry<K, V>>, need: nat, budget: nat): seq<Entry<K, V>> {
    if es != [] && Total(es) + need > budget then Evict(es[1..], need, budget) else es
  }

  lemma {:induction false} TotalAppend<K, V>(es: seq<Entry<K, V>>, fs: seq<Entry<K, V>>)
    ensures Total(es + fs) == Total(es) + Total(fs)
  {
    if es == [] {
      assert es + fs == fs;
    } else {
      assert (es + fs)[1..] == es[1..] + fs;
      TotalAppend(es[1..], fs);
    }
  }

  lemma {:induction false} TotalDrop<K, V>(es: seq<Entry<K, V>>, i: nat)
    requires i < |es|
    ensures Total(Drop(es, i)) == Total(es) - es[i].size
  {
    if i == 0 {
      assert Drop(es, 0) == es[1..];
    } else {
      TotalDrop(es[1..], i - 1);
      assert Drop(es, i)[1..] == Drop(es[1..], i - 1);
    }
  }

  /** Eviction keeps the longest most-recent suffix that leaves room. */
  lemma {:induction false} EvictKeepsLongestSuffix<K, V>(es: seq<Entry<K, V>>, need: nat, budget: nat)
    ensures var k := |es| - |Evict(es, need, budget)|;
            && 0 <= k <= |es| && Evict(es, need, budget) == es[k..]
            && (es[k..] == [] || Total(es[k..]) + need <= budget)
            && (forall j :: 0 <= j < k ==> Total(es[j..]) + need > budget)
  {
    if es != [] && Total(es) + need > budget {
      EvictKeepsLongestSuffix(es[1..], need, budget);
      var k := |es| - |Evict(es, need, budget)|;
      forall j | 0 <= j < k
        ensures Total(es[j..]) + need > budget
      {
        if j > 0 {
          assert es[1..][j - 1..] == es[j..];
        } else {
          assert es[0..] == es;
        }
      }
      assert es[1..][k - 1..] == es[k..];
    } else {
      assert es[0..] == es;
    }
  }

  /** When each entry was last touched. */
  ghost predicate InRecencyOrder<K, V>(es: seq<Entry<K, V>>, lastUse: map<K, nat>) {
    && (forall i :: 0 <= i < |es| ==> es[i].key in lastUse)
    && (forall i, j :: 0 <= i < j < |es| ==> lastUse[es[i].key] < lastUse[es[j].key])
  }

  /** An entry was hit or admitted: it is the last one used. */
  ghost predicate Touched<K>(before: map<K, nat>, ticks: nat, after: map<K, nat>, newTicks: nat, key: K) {
    after == before[key := ticks] && newTicks == ticks + 1
  }

  /** Recency order, hence uniqueness, survives dropping entries ... */
  lemma DropKeepsOrder<K, V>(es: seq<Entry<K, V>>, i: nat, lastUse: map<K, nat>)
    requires i < |es| && InRecencyOrder(es, lastUse)
    ensures InRecencyOrder(Drop(es, i), lastUse)
    ensures forall j :: 0 <= j < |es| - 1 ==> Drop(es, i)[j].key != es[i].key
    ensures forall e :: e in Drop(es, i) ==> e in es
  {
    var r := Drop(es, i);
    assert forall j :: 0 <= j < |r| ==> r[j] == es[if j < i then j else j + 1];
  }

  /** ... and appending an entry touched just now. */
  lemma AppendKeepsOrder<K, V>(es: seq<Entry<K, V>>, e: Entry<K, V>, lastUse: map<K, nat>, now: nat)
    requires InRecencyOrder(es, lastUse)
    requires forall i :: 0 <= i < |es| ==> es[i].key != e.key && lastUse[es[i].key] < now
    ensures InRecencyOrder(es + [e], lastUse[e.key := now])
  {
  }

  lemma WithoutFacts<K, V>(es: seq<Entry<K, V>>, key: K, lastUse: map<K, nat>)
    requires InRecencyOrder(es, lastUse)
    ensures InRecencyOrder(Without(es, key), lastUse)
    ensures forall i :: 0 <= i < |Without(es, key)| ==> Without(es, key)[i].key != key
    ensures forall e :: e in Without(es, key) <==> e in es && e.key != key
    ensures Total(Without(es, key)) <= Total(es)
  {
    var i := Find(es, key);
    if i < |es| {
      DropKeepsOrder(es, i, lastUse);
      TotalDrop(es, i);
      forall e | e in es && e.key != key
        ensures e in Drop(es, i)
      {
        var j :| 0 <= j < |es| && es[j] == e;
        assert Drop(es, i)[if j < i then j else j - 1] == e;
      }
    }
  }

  /** The state of an ordered dictionary with a byte counter: the counter is exact and within budget,
    * and the dictionary is in recency order. */
  ghost predicate Consistent<K, V>(es: seq<Entry<K, V>>, used: int, budget: nat, lastUse: map<K, nat>, ticks: nat) {
    && used == Total(es) <= budget
    && InRecencyOrder(es, lastUse)
    && forall i :: 0 <= i < |es| ==> lastUse[es[i].key] < ticks
  }

  lemma RemoveConsistent<K, V>(es: seq<Entry<K, V>>, key: K, used: int, budget: nat, lastUse: map<K, nat>, ticks: nat)
    requires Consistent(es, used, budget, lastUse, ticks) && Find(es, key) < |es|
    ensures Consistent(Without(es, key), used - es[Find(es, key)].size, budget, lastUse, ticks)
    ensures forall e :: e in Without(es, key) <==> e in es && e.key != key
    ensures forall e :: e in Without(es, key) ==> e in es
    ensures forall e :: e in es && e.key == key ==> e == es[Find(es, key)]
    ensures !HasKey(Without(es, key), key)
  {
    hide Total, Without, Find, HasKey, InRecencyOrder;
    WithoutFacts(es, key, lastUse);
    WithoutMembers(es, key);
    WithoutTotal(es, key);
    OnlyEntry(es, key, lastUse);
    NoKey(Without(es, key), key);
    SubsetBefore(es, Without(es, key), lastUse, ticks);
  }

  lemma WithoutTotal<K, V>(es: seq<Entry<K, V>>, key: K)
    requires Find(es, key) < |es|
    ensures Total(Without(es, key)) == Total(es) - es[Find(es, key)].size
  {
    TotalDrop(es, Find(es, key));
  }

  lemma SubsetBefore<K, V>(es: seq<Entry<K, V>>, fs: seq<Entry<K, V>>, lastUse: map<K, nat>, ticks: nat)
    requires InRecencyOrder(es, lastUse) && forall i :: 0 <= i < |es| ==> lastUse[es[i].key] < ticks
    requires InRecencyOrder(fs, lastUse) && forall e :: e in fs ==> e in es
    ensures forall i :: 0 <= i < |fs| ==> lastUse[fs[i].key] < ticks
  {
    forall i | 0 <= i < |fs|
      ensures lastUse[fs[i].key] < ticks
    {
      assert fs[i] in es;
    }
  }

  lemma OnlyEntry<K, V>(es: seq<Entry<K, V>>, key: K, lastUse: map<K, nat>)
    requires InRecencyOrder(es, lastUse) && Find(es, key) < |es|
    ensures forall e :: e in es && e.key == key ==> e == es[Find(es, key)]
  {
  }

  lemma NoKey<K, V>(es: seq<Entry<K, V>>, key: K)
    requires forall i :: 0 <= i < |es| ==> es[i].key != key
    ensures !HasKey(es, key)
  {
  }

  lemma AppendConsistent<K, V>(es: seq<Entry<K, V>>, e: Entry<K, V>, used: int, budget: nat, lastUse: map<K, nat>,
          ticks: nat)
    requires Consistent(es, used, budget, lastUse, ticks) && used + e.size <= budget
    requires !HasKey(es, e.key)
    ensures Consistent(es + [e], used + e.size, budget, lastUse[e.key := ticks], ticks + 1)
  {
    hide Total;
    assert forall i :: 0 <= i < |es| ==> es[i] in es;
    AppendKeepsOrder(es, e, lastUse, ticks);
    TotalAppend(es, [e]);
    TotalOne(e);
  }

  lemma TotalOne<K, V>(e: Entry<K, V>)
    ensures Total([e]) == e.size
  {
  }

  /** One turn of the eviction loop, and its exit. */
  lemma EvictStep<K, V>(es: seq<Entry<K, V>>, need: nat, used: int, budget: nat, lastUse: map<K, nat>, ticks: nat)
    requires Consistent(es, used, budget, lastUse, ticks)
    ensures es != [] && used + need > budget ==>
      && Evict(es, need, budget) == Evict(es[1..], need, budget)
      && Find(es, es[0].key) == 0 && Without(es, es[0].key) == es[1..]
    ensures es == [] || used + need <= budget ==> Evict(es, need, budget) == es
    ensures es == [] ==> used == 0
  {
  }

  lemma WithoutMembers<K, V>(es: seq<Entry<K, V>>, key: K)
    ensures forall e :: e in Without(es, key) ==> e in es
  {
  }

  lemma EvictMembers<K(!new), V>(es: seq<Entry<K, V>>, need: nat, budget: nat)
    ensures forall e :: e in Evict(es, need, budget) ==> e in es
    ensures forall key :: HasKey(Evict(es, need, budget), key) ==> HasKey(es, key)
  {
    EvictKeepsLongestSuffix(es, need, budget);
    forall key | HasKey(Evict(es, need, budget), key)
      ensures HasKey(es, key)
    {
      var i := Find(Evict(es, need, budget), key);
      var k := |es| - |Evict(es, need, budget)|;
      assert es[k + i].key == key;
    }
  }
}
