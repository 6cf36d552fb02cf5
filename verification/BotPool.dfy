/** The upload rotation of src/anbar/storage/bot_pool.py.  Members are indices into the pool; the
  * monotonic clock is a parameter. */
module BotPool {
  import opened Bytes

  const FLOOD_TTL: nat := 60

  // ----- member names -----

  function Digit(d: nat): char
    requires d < 10
  {
    ['0', '1', '2', '3', '4', '5', '6', '7', '8', '9'][d]
  }

  function Decimal(n: nat): (s: string)
    ensures s != ""
  {
    if n < 10 then [Digit(n)] else Decimal(n / 10) + [Digit(n % 10)]
  }

  lemma {:induction false} DecimalInjective(m: nat, n: nat)
    requires Decimal(m) == Decimal(n)
    ensures m == n
    decreases m
  {
    var s, t := Decimal(m), Decimal(n);
    assert s[|s| - 1] == Digit(m % 10) && t[|t| - 1] == Digit(n % 10);
    DecimalLength(m);
    DecimalLength(n);
    if m >= 10 && n >= 10 {
      assert s[..|s| - 1] == Decimal(m / 10) && t[..|t| - 1] == Decimal(n / 10);
      DecimalInjective(m / 10, n / 10);
    }
  }

  lemma DecimalLength(n: nat)
    ensures |Decimal(n)| == 1 <==> n < 10
  {
  }

  /** The number that decimal digits stand for. */
  function Reading(s: string): int {
    if s == "" then 0 else 10 * Reading(s[..|s| - 1]) + (s[|s| - 1] as int - '0' as int)
  }

  /** The decimal of a number is made of digits, reads as that number, and has no leading zero. */
  lemma {:induction false} DecimalReads(n: nat)
    ensures Reading(Decimal(n)) == n && forall i :: 0 <= i < |Decimal(n)| ==> '0' <= Decimal(n)[i] <= '9'
    ensures n > 0 ==> Decimal(n)[0] != '0'
  {
    var s := Decimal(n);
    if n >= 10 {
      DecimalReads(n / 10);
      assert s[..|s| - 1] == Decimal(n / 10);
    } else {
      assert s[..|s| - 1] == "";
    }
  }

  /** "bot", "bot:1", "bot:2", ... */
  function MemberName(i: nat): (s: string)
    ensures s != ""
  {
    if i == 0 then "bot" else "bot:" + Decimal(i)
  }

  function MemberNames(n: nat): (s: seq<string>)
    ensures |s| == n
  {
    seq(n, i requires 0 <= i < n => MemberName(i))
  }

  predicate Distinct(names: seq<string>) {
    forall i, j :: 0 <= i < j < |names| ==> names[i] != names[j]
  }

  lemma MemberNameInjective(i: nat, j: nat)
    requires MemberName(i) == MemberName(j)
    ensures i == j
  {
    assert i > 0 <==> |MemberName(i)| > 3;
    assert j > 0 <==> |MemberName(j)| > 3;
    if i > 0 {
      assert MemberName(i)[4..] == Decimal(i) && MemberName(j)[4..] == Decimal(j);
      DecimalInjective(i, j);
    }
  }

  lemma MemberNamesDistinct(n: nat)
    ensures Distinct(MemberNames(n))
  {
    forall i, j | 0 <= i < j < n
      ensures MemberNames(n)[i] != MemberNames(n)[j]
    {
      if MemberName(i) == MemberName(j) {
        MemberNameInjective(i, j);
      }
    }
  }

  function FirstNamed(names: seq<string>, name: string, from: nat): (i: nat)
    requires from <= |names|
    ensures from <= i <= |names|
    ensures i < |names| ==> names[i] == name
    ensures forall j :: from <= j < i ==> names[j] != name
    decreases |names| - from
  {
    if from == |names| || names[from] == name then from else FirstNamed(names, name, from + 1)
  }

  /** by_name: the member of that name; no name, the empty name and unknown names mean the primary. */
  function ByName(names: seq<string>, name: Option<string>): (r: Option<nat>)
    ensures r.Some? <==> names != []
    ensures r.Some? ==> r.value < |names|
  {
    if names == [] then None
    else if name == None || name.value == "" then Some(0)
    else if FirstNamed(names, name.value, 0) < |names| then Some(FirstNamed(names, name.value, 0))
    else Some(0)
  }

  lemma ByNameFindsOne(names: seq<string>, i: nat)
    requires Distinct(names) && i < |names| && names[i] != ""
    ensures ByName(names, Some(names[i])) == Some(i)
  {
    var k := FirstNamed(names, names[i], 0);
    assert names[k] == names[i] && k <= i;
  }

  /** Every member is found under its own name exactly when names are distinct (and not empty, except
    * for the primary). */
  lemma ByNameFindsMember(names: seq<string>)
    requires forall i :: 0 <= i < |names| ==> names[i] != ""
    ensures Distinct(names) <==> forall i :: 0 <= i < |names| ==> ByName(names, Some(names[i])) == Some(i)
  {
    hide ByName;
    if Distinct(names) {
      forall i | 0 <= i < |names|
        ensures ByName(names, Some(names[i])) == Some(i)
      {
        ByNameFindsOne(names, i);
      }
    } else {
      var i, j :| 0 <= i < j < |names| && names[i] == names[j];
      assert ByName(names, Some(names[i])) == ByName(names, Some(names[j]));
    }
  }

  // ----- rotation -----

  /** The members among the first n whose flood penalty is over. */
  function Healthy(n: nat, flood: map<nat, nat>, now: nat): (h: seq<nat>)
    ensures forall k :: 0 <= k < |h| ==> h[k] < n
  {
    if n == 0 then []
    else Healthy(n - 1, flood, now) + if n - 1 !in flood || flood[n - 1] <= now then [n - 1] else []
  }

  lemma {:induction false} HealthyExactly(n: nat, flood: map<nat, nat>, now: nat)
    ensures forall i: nat :: i in Healthy(n, flood, now) <==> i < n && (i !in flood || flood[i] <= now)
    ensures forall j, k :: 0 <= j < k < |Healthy(n, flood, now)| ==>
      Healthy(n, flood, now)[j] < Healthy(n, flood, now)[k]
  {
    if n > 0 {
      HealthyExactly(n - 1, flood, now);
    }
  }

  /** A member marked at a flood is out of the rotation for exactly 60 seconds. */
  lemma FloodedMemberSkipped(names: seq<string>, i: nat, flood: map<nat, nat>, now: nat, later: nat)
    requires Distinct(names) && i < |names| && now <= later
    ensures FirstNamed(names, names[i], 0) == i
    ensures i in Healthy(|names|, flood[i := now + 60], later) <==> later >= now + 60
    ensures forall k: nat :: k != i && k in Healthy(|names|, flood, later) ==>
      k in Healthy(|names|, flood[i := now + 60], later)
  {
    HealthyExactly(|names|, flood, later);
    HealthyExactly(|names|, flood[i := now + 60], later);
  }

  lemma JustFlooded(names: seq<string>, i: nat, flood: map<nat, nat>, now: nat)
    requires Distinct(names) && i < |names|
    ensures FirstNamed(names, names[i], 0) == i
    ensures i !in Healthy(|names|, flood[i := now + 60], now)
  {
    FloodedMemberSkipped(names, i, flood, now, now);
  }

  class BotPool {
    const names: seq<string>
    var floodUntil: map<nat, nat>
    var rr: nat
    var cycle: nat

    constructor (n: nat)
      ensures names == MemberNames(n) && floodUntil == map[] && rr == 0 && cycle == 0
      ensures forall i :: 0 <= i < n ==> names[i] == if i == 0 then "bot" else "bot:" + Decimal(i)
    {
      names := MemberNames(n);
      floodUntil := map[];
      rr, cycle := 0, 0;
    }

    /** mark_flood: the first member of that name leaves the rotation for 60 seconds. */
    method MarkFlood(name: string, now: nat)
      modifies this`floodUntil
      ensures var i := FirstNamed(names, name, 0);
              floodUntil == if i < |names| then old(floodUntil)[i := now + 60] else old(floodUntil)
    {
      for i := 0 to |names|
        invariant floodUntil == old(floodUntil)
        invariant forall j :: 0 <= j < i ==> names[j] != name
      {
        if names[i] == name {
          floodUntil := floodUntil[i := now + FLOOD_TTL];
          assert FirstNamed(names, name, 0) == i;
          return;
        }
      }
    }

    /** next: None for an empty pool (the source's RuntimeError).  A healthy member whenever there is
      * one, else the primary; healthy members take turns. */
    method Next(now: nat) returns (r: Option<nat>)
      modifies this`rr, this`cycle
      ensures r.Some? <==> names != []
      ensures r.Some? ==> r.value < |names|
      ensures r.Some? ==>
        var h := Healthy(|names|, floodUntil, now);
        if floodUntil == map[] then r.value == old(cycle) % |names| && cycle == old(cycle) + 1 && rr == old(rr)
        else if h != [] then r.value == h[old(rr) % |h|] && rr == old(rr) + 1 && cycle == old(cycle)
        else r.value == 0 && rr == old(rr) && cycle == old(cycle)
      ensures r.Some? && Healthy(|names|, floodUntil, now) != [] ==> r.value in Healthy(|names|, floodUntil, now)
    {
      if names == [] {
        return None;
      }
      if floodUntil != map[] {
        var healthy := Healthy(|names|, floodUntil, now);
        if healthy != [] {
          r := Some(healthy[rr % |healthy|]);
          rr := rr + 1;
        } else {
          r := Some(0);
        }
      } else {
        HealthyExactly(|names|, floodUntil, now);
        r := Some(cycle % |names|);
        cycle := cycle + 1;
      }
    }
  }

  /** The member picked by the i-th of a series of calls that all see the same list of members. */
  function Pick(members: seq<nat>, counter: nat, i: nat): nat
    requires members != []
  {
    members[(counter + i) % |members|]
  }

  lemma DivMod(n: nat, h: nat)
    requires h > 0
    ensures n == (n / h) * h + n % h && n % h < h
  {
  }

  lemma Distribute(d: int, q: int, h: int)
    ensures (d - q) * h == d * h - q * h
  {
  }

  lemma AtLeast(x: int, h: int)
    requires x >= 1 && h > 0
    ensures x * h >= h
  {
  }

  lemma DivUnique(n: nat, q: nat, r: nat, h: nat)
    requires h > 0 && r < h && n == q * h + r
    ensures n % h == r
  {
    var d := n / h;
    DivMod(n, h);
    Distribute(d, q, h);
    Distribute(q, d, h);
    if d > q { AtLeast(d - q, h); } else if d < q { AtLeast(q - d, h); }
  }

  lemma ModShift(a: nat, b: nat, h: nat)
    requires h > 0 && a <= b < a + h && a % h == b % h
    ensures a == b
  {
    DivMod(a, h);
    DivMod(b, h);
    Distribute(b / h, a / h, h);
    Distribute(a / h, b / h, h);
    if b / h > a / h { AtLeast(b / h - a / h, h); } else if b / h < a / h { AtLeast(a / h - b / h, h); }
  }

  lemma NextTurn(h: nat, counter: nat, t: nat) returns (i: nat)
    requires t < h
    ensures i < h && (counter + i) % h == t
  {
    var q, c := counter / h, counter % h;
    DivMod(counter, h);
    if t >= c {
      i := t - c;
      DivUnique(counter + i, q, t, h);
    } else {
      i := t + h - c;
      Distribute(q, -1, h);
      DivUnique(counter + i, q + 1, t, h);
    }
  }

  lemma OneTurn(h: nat, counter: nat, i: nat, j: nat)
    requires i < h && j < h && (counter + i) % h == (counter + j) % h
    ensures i == j
  {
    if j <= i { ModShift(counter + j, counter + i, h); } else { ModShift(counter + i, counter + j, h); }
  }

  /** Round-robin fairness: over as many consecutive calls as there are members, each member is
    * picked exactly once, wherever the counter stands. */
  lemma RotationIsFair(members: seq<nat>, counter: nat, t: nat) returns (i: nat)
    requires t < |members|
    requires forall j, k :: 0 <= j < k < |members| ==> members[j] != members[k]
    ensures i < |members| && Pick(members, counter, i) == members[t]
    ensures forall j :: 0 <= j < |members| && Pick(members, counter, j) == members[t] ==> j == i
  {
    i := NextTurn(|members|, counter, t);
    forall j | 0 <= j < |members| && Pick(members, counter, j) == members[t]
      ensures j == i
    {
      SameSlot(members, (counter + j) % |members|, t);
      OneTurn(|members|, counter, i, j);
    }
  }

  /** x is picked by call i and by no other. */
  ghost predicate OnceAt(picks: seq<nat>, x: nat, i: nat) {
    i < |picks| && picks[i] == x && forall j :: 0 <= j < |picks| && picks[j] == x ==> j == i
  }

  lemma AllHealthy(n: nat, now: nat)
    ensures |Healthy(n, map[], now)| == n && forall i :: 0 <= i < n ==> Healthy(n, map[], now)[i] == i
  {
  }

  /** A run of calls of next() during which the healthy members do not change: they take turns, and as
    * many calls as there are healthy members pick each of them exactly once. */
  method Turns(pool: BotPool, times: seq<nat>, ghost healthy: seq<nat>) returns (picks: seq<nat>)
    requires healthy != []
    requires forall k :: 0 <= k < |times| ==> Healthy(|pool.names|, pool.floodUntil, times[k]) == healthy
    requires times != []
    modifies pool`rr, pool`cycle
    ensures |picks| == |times|
    ensures var counter := old(if pool.floodUntil == map[] then pool.cycle else pool.rr);
            forall k :: 0 <= k < |picks| ==> picks[k] == Pick(healthy, counter, k)
    ensures |times| == |healthy| ==> forall x :: x in healthy ==> exists i :: OnceAt(picks, x, i)
  {
    hide Healthy;
    ghost var counter := if pool.floodUntil == map[] then pool.cycle else pool.rr;
    picks := [];
    HealthyExactly(|pool.names|, pool.floodUntil, times[0]);
    for k := 0 to |times|
      invariant |picks| == k && (if pool.floodUntil == map[] then pool.cycle else pool.rr) == counter + k
      invariant forall i :: 0 <= i < k ==> picks[i] == Pick(healthy, counter, i)
    {
      AllHealthy(|pool.names|, times[k]);
      var next := pool.Next(times[k]);
      picks := picks + [next.value];
    }
    if |times| == |healthy| {
      forall x | x in healthy
        ensures exists i :: OnceAt(picks, x, i)
      {
        var t :| 0 <= t < |healthy| && healthy[t] == x;
        var i := RotationIsFair(healthy, counter, t);
        assert OnceAt(picks, x, i);
      }
    }
  }

  lemma SameSlot(members: seq<nat>, a: nat, b: nat)
    requires a < |members| && b < |members| && members[a] == members[b]
    requires forall j, k :: 0 <= j < k < |members| ==> members[j] != members[k]
    ensures a == b
  {
  }
}
