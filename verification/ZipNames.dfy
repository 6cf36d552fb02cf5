/** How the ZIP endpoint of src/anbar/api/download.py gives archive members distinct names. */
module ZipNames {
  import opened Bytes
  import Pool = BotPool

  /** The n-th name tried: the name itself, then with -2, -3, ... before the extension. */
  function Candidate(name: string, n: nat): string {
    if n <= 1 then name else name[..LastDot(name)] + "-" + Pool.Decimal(n) + name[LastDot(name)..]
  }

  lemma CandidatesDiffer(name: string, m: nat, n: nat)
    requires 1 <= m && 1 <= n && Candidate(name, m) == Candidate(name, n)
    ensures m == n
  {
    var i := LastDot(name);
    var s, t := Candidate(name, m), Candidate(name, n);
    if m > 1 && n > 1 {
      assert |Pool.Decimal(m)| == |s| - |name| - 1 && |Pool.Decimal(n)| == |t| - |name| - 1;
      assert s[i + 1..i + 1 + |Pool.Decimal(m)|] == Pool.Decimal(m);
      assert t[i + 1..i + 1 + |Pool.Decimal(n)|] == Pool.Decimal(n);
      Pool.DecimalInjective(m, n);
    } else {
      assert |s| == |name| + (if m > 1 then 1 + |Pool.Decimal(m)| else 0);
      assert |t| == |name| + (if n > 1 then 1 + |Pool.Decimal(n)| else 0);
    }
  }

  /** The number stands before the last dot and the extension, or at the end of a name without a dot. */
  lemma CandidateNumbered(stem: string, extension: string, n: nat)
    requires n >= 2 && '.' !in extension
    ensures Candidate(stem + "." + extension, n) == stem + "-" + Pool.Decimal(n) + "." + extension
    ensures '.' !in stem ==> Candidate(stem, n) == stem + "-" + Pool.Decimal(n)
    ensures Candidate(stem, 1) == stem
  {
    LastDotSplits(stem, extension);
  }

  /** The first n - 1 candidates. */
  ghost function Tried(name: string, n: nat): set<string> {
    if n <= 1 then {} else Tried(name, n - 1) + {Candidate(name, n - 1)}
  }

  lemma {:induction false} NotTried(name: string, n: nat, m: nat)
    requires 1 <= n <= m
    ensures Candidate(name, m) !in Tried(name, n)
  {
    hide Candidate;
    if n > 1 {
      NotTried(name, n - 1, m);
      if Candidate(name, n - 1) == Candidate(name, m) {
        CandidatesDiffer(name, n - 1, m);
      }
    }
  }

  /** n is the least number whose candidate is free. */
  ghost predicate IsFirstFree(name: string, n: nat, used: set<string>) {
    n >= 1 && Candidate(name, n) !in used && forall m :: 1 <= m < n ==> Candidate(name, m) in used
  }

  /** The search ends because candidates never repeat: it looks at no more than |used| + 1 of them. */
  method FirstFree(name: string, used: set<string>) returns (n: nat)
    ensures IsFirstFree(name, n, used) && n <= |used| + 1
  {
    hide Candidate;
    n := 1;
    while Candidate(name, n) in used
      invariant n >= 1 && Tried(name, n) <= used && |Tried(name, n)| == n - 1 <= |used|
      invariant forall m :: 1 <= m < n ==> Candidate(name, m) in used
      decreases |used| + 1 - n
    {
      NotTried(name, n, n);
      Fewer(Tried(name, n + 1), used);
      n := n + 1;
    }
  }

  ghost function Elements(names: seq<string>): set<string> {
    set s | s in names
  }

  /** Member i has the first of its candidate names that no earlier member has, number picks[i]. */
  ghost predicate Named(names: seq<string>, out: seq<string>, picks: seq<nat>) {
    && |out| == |picks| <= |names|
    && forall i :: 0 <= i < |out| ==>
       out[i] == Candidate(names[i], picks[i]) && IsFirstFree(names[i], picks[i], Elements(out[..i]))
  }

  lemma NameNext(names: seq<string>, out: seq<string>, picks: seq<nat>, n: nat)
    requires Named(names, out, picks) && |out| < |names| && IsFirstFree(names[|out|], n, Elements(out))
    ensures Named(names, out + [Candidate(names[|out|], n)], picks + [n])
  {
    hide Candidate, IsFirstFree, Elements;
    var more := out + [Candidate(names[|out|], n)];
    assert forall i :: 0 <= i <= |out| ==> more[..i] == out[..i];
    assert out[..|out|] == out;
  }

  /** So no two members share a name. */
  lemma NamesDistinct(names: seq<string>, out: seq<string>, picks: seq<nat>, i: nat, j: nat)
    requires Named(names, out, picks) && i < j < |out|
    ensures out[i] != out[j]
  {
    assert out[..j][i] in Elements(out[..j]);
    assert IsFirstFree(names[j], picks[j], Elements(out[..j]));
  }

  method EntryNames(names: seq<string>) returns (out: seq<string>, ghost picks: seq<nat>)
    ensures |out| == |names| && Named(names, out, picks)
  {
    hide Candidate, IsFirstFree, Named;
    out, picks := [], [];
    var used := {};
    NamedNone(names);
    for k := 0 to |names|
      invariant |out| == k && used == Elements(out) && Named(names, out, picks)
    {
      var n := FirstFree(names[k], used);
      NameNext(names, out, picks, n);
      out := out + [Candidate(names[k], n)];
      picks := picks + [n];
      used := used + {Candidate(names[k], n)};
    }
  }

  lemma NamedNone(names: seq<string>)
    ensures Named(names, [], [])
  {
  }
}
