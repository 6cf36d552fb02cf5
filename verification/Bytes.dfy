/** Byte strings, and the small vocabulary the other modules share. */
module Bytes {
  type Byte = b: nat | b < 256

  datatype Option<+T> = None | Some(value: T)

  function Min(a: int, b: int): int {
    if a < b then a else b
  }

  /** The concatenation of a list of byte strings. */
  function Concat(parts: seq<seq<Byte>>): seq<Byte> {
    if parts == [] then [] else Concat(parts[..|parts| - 1]) + parts[|parts| - 1]
  }

  lemma ConcatSnoc(parts: seq<seq<Byte>>, p: seq<Byte>)
    ensures Concat(parts + [p]) == Concat(parts) + p
  {
    assert (parts + [p])[..|parts|] == parts;
  }

  lemma {:induction false} ConcatAppend(a: seq<seq<Byte>>, b: seq<seq<Byte>>)
    ensures Concat(a + b) == Concat(a) + Concat(b)
  {
    if b == [] {
      assert a + b == a;
    } else {
      ConcatAppend(a, b[..|b| - 1]);
      assert (a + b)[..|a + b| - 1] == a + b[..|b| - 1];
      assert (a + b)[|a + b| - 1] == b[|b| - 1];
      Assoc(Concat(a), Concat(b[..|b| - 1]), b[|b| - 1]);
    }
  }

  lemma Assoc(x: seq<Byte>, y: seq<Byte>, z: seq<Byte>)
    ensures (x + y) + z == x + (y + z)
  {
  }

  lemma Fewer<T>(a: set<T>, b: set<T>)
    requires a <= b
    ensures |a| <= |b|
  {
    assert b == a + (b - a);
  }

  /** The position of the last dot of a name, or its length. */
  function LastDot(name: string): (i: nat)
    ensures i <= |name|
    ensures i < |name| ==> name[i] == '.'
    ensures forall j :: i < j < |name| ==> name[j] != '.'
    ensures i == |name| ==> '.' !in name
  {
    if name == "" then 0
    else if name[|name| - 1] == '.' then |name| - 1
    else if LastDot(name[..|name| - 1]) < |name| - 1 then LastDot(name[..|name| - 1])
    else |name|
  }

  /** A name with an extension, taken apart at its last dot. */
  lemma LastDotSplits(stem: string, extension: string)
    requires '.' !in extension
    ensures var name, i := stem + "." + extension, LastDot(stem + "." + extension);
            name[..i] == stem && name[i..] == "." + extension
  {
    var name := stem + "." + extension;
    assert name[|stem|] == '.' && forall j :: |stem| < j < |name| ==> name[j] == extension[j - |stem| - 1];
  }
}
