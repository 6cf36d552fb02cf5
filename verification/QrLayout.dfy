/** Where a QR symbol keeps its function patterns and in which order its other modules are filled
  * (sections 6.3 and 7.7.3 of ISO/IEC 18004, as src/anbar/qrcode.py draws them). */
module QrLayout {

  type Version = v: nat | 1 <= v <= 10 witness 1

  function Size(ver: Version): (n: nat)
    ensures n == 2 * HalfSize(ver) + 1 && 21 <= n <= 57
  {
    21 + (ver - 1) * 4
  }

  /** The number of column pairs. */
  function HalfSize(ver: Version): nat {
    10 + (ver - 1) * 2
  }

  /** Alignment coordinates; version 1 has none. */
  function AlignPos(ver: Version): (s: seq<nat>)
    ensures forall i :: 1 <= i < |s| ==> 16 <= s[i] <= Size(ver) - 7
    ensures forall i, j :: 1 <= i < j < |s| ==> s[i] + 5 <= s[j]
    ensures |s| <= 3 && (s != [] ==> s[0] == 6)
  {
    match ver
    case 1 => []
    case 2 => [6, 18]
    case 3 => [6, 22]
    case 4 => [6, 26]
    case 5 => [6, 30]
    case 6 => [6, 34]
    case 7 => [6, 22, 38]
    case 8 => [6, 24, 42]
    case 9 => [6, 26, 46]
    case 10 => [6, 28, 50]
  }

  /** Annex E of ISO/IEC 18004 for these versions: the first coordinate is that of the timing lines, the last
    * is seven from the far edge, the others divide the distance evenly. */
  lemma AlignmentEven(ver: Version)
    ensures Size(ver) == 17 + 4 * ver
    ensures ver == 1 <==> AlignPos(ver) == []
    ensures ver >= 2 ==> |AlignPos(ver)| == ver / 7 + 2
    ensures forall i :: 0 <= i < |AlignPos(ver)| ==>
      (AlignPos(ver)[i] - 6) * (|AlignPos(ver)| - 1) == i * (17 + 4 * ver - 13)
  {
  }

  // ----- the reserved modules -----

  /** A finder pattern with its separator, in three corners. */
  predicate InFinder(n: nat, r: int, c: int) {
    (r <= 7 && c <= 7) || (r <= 7 && c >= n - 8) || (r >= n - 8 && c <= 7)
  }

  predicate InTiming(n: nat, r: int, c: int) {
    (r == 6 && 8 <= c < n - 8) || (c == 6 && 8 <= r < n - 8)
  }

  predicate Close(x: int, p: int) {
    -2 <= x - p <= 2
  }

  /** The alignment coordinate other than the first that x is close to, or 0. */
  function AlignIndex(ver: Version, x: int): (i: nat)
    ensures i > 0 ==> i < |AlignPos(ver)| && Close(x, AlignPos(ver)[i])
    ensures forall j :: 1 <= j < |AlignPos(ver)| && Close(x, AlignPos(ver)[j]) ==> j == i
  {
    var s := AlignPos(ver);
    if |s| > 1 && Close(x, s[1]) then 1 else if |s| > 2 && Close(x, s[2]) then 2 else 0
  }

  /** Alignment squares sit at every pair of coordinates other than the first. */
  predicate InAlign(ver: Version, r: int, c: int) {
    AlignIndex(ver, r) > 0 && AlignIndex(ver, c) > 0
  }

  predicate InFormat(n: nat, r: int, c: int) {
    (r == 8 && (c <= 8 || c >= n - 8)) || (c == 8 && (r <= 8 || r >= n - 8))
  }

  predicate Reserved(ver: Version, r: int, c: int) {
    var n := Size(ver);
    InFinder(n, r, c) || InTiming(n, r, c) || InAlign(ver, r, c) || InFormat(n, r, c)
  }

  // ----- the zigzag walk -----

  type Pos = (int, int)

  /** The right-hand column of the p-th column pair; column 6 is skipped. */
  function PairColumn(n: nat, p: nat): int {
    if n - 1 - 2 * p > 6 then n - 1 - 2 * p else n - 2 - 2 * p
  }

  /** The i-th row visited in pair p: even pairs run upward. */
  function PairRow(n: nat, p: nat, i: nat): int {
    if p % 2 == 0 then n - 1 - i else i
  }

  function RowCells(n: nat, p: nat, i: nat): seq<Pos> {
    [(PairRow(n, p, i), PairColumn(n, p)), (PairRow(n, p, i), PairColumn(n, p) - 1)]
  }

  /** The cells visited before row index i of pair p. */
  function Walk(n: nat, p: nat, i: nat): seq<Pos>
    decreases p, i
  {
    if i > 0 then Walk(n, p, i - 1) + RowCells(n, p, i - 1)
    else if p > 0 then Walk(n, p - 1, n)
    else []
  }

  function FullWalk(n: nat): seq<Pos>
    requires n >= 1
  {
    Walk(n, (n - 1) / 2, 0)
  }

  /** The pair a column belongs to. */
  function PairOf(n: nat, c: int): int {
    if c > 6 then (n - 1 - c) / 2 else (n - 2 - c) / 2
  }

  /** The index at which pair p visits row r. */
  function RowIndex(n: nat, p: int, r: int): int {
    if p % 2 == 0 then n - 1 - r else r
  }

  predicate OnWalk(n: nat, cell: Pos) {
    0 <= cell.0 < n && 0 <= cell.1 < n && cell.1 != 6
  }

  /** cell comes before row index i of pair p. */
  predicate Earlier(n: nat, cell: Pos, p: nat, i: nat) {
    var q := PairOf(n, cell.1);
    q < p || (q == p && RowIndex(n, q, cell.0) < i)
  }

  predicate NoDuplicates(s: seq<Pos>) {
    forall j, k :: 0 <= j < k < |s| ==> s[j] != s[k]
  }

  lemma RowCellsFacts(n: nat, p: nat, i: nat, cell: Pos)
    requires n % 2 == 1 && n >= 9 && p < (n - 1) / 2 && i < n
    ensures cell in RowCells(n, p, i) <==>
            OnWalk(n, cell) && PairOf(n, cell.1) == p && RowIndex(n, p, cell.0) == i
  {
  }

  /** The walk up to (p, i) visits exactly the cells that rank before (p, i), each once. */
  lemma {:induction false} WalkVisits(n: nat, p: nat, i: nat)
    requires n % 2 == 1 && n >= 9 && i <= n
    requires p < (n - 1) / 2 || (p == (n - 1) / 2 && i == 0)
    ensures forall cell :: cell in Walk(n, p, i) <==> OnWalk(n, cell) && Earlier(n, cell, p, i)
    ensures NoDuplicates(Walk(n, p, i))
    decreases p, i
  {
    if i > 0 {
      WalkVisits(n, p, i - 1);
      var before, row := Walk(n, p, i - 1), RowCells(n, p, i - 1);
      forall cell: Pos
        ensures cell in row <==> OnWalk(n, cell) && PairOf(n, cell.1) == p && RowIndex(n, p, cell.0) == i - 1
      {
        RowCellsFacts(n, p, i - 1, cell);
      }
      assert row[0] !in before && row[1] !in before && row[0] != row[1];
    } else if p > 0 {
      WalkVisits(n, p - 1, n);
    }
  }

  /** The walk visits every cell outside column 6 exactly once. */
  lemma FullWalkVisits(n: nat)
    requires n % 2 == 1 && n >= 9
    ensures forall cell :: cell in FullWalk(n) <==> OnWalk(n, cell)
    ensures NoDuplicates(FullWalk(n))
  {
    WalkVisits(n, (n - 1) / 2, 0);
  }

  // ----- the data modules -----

  /** The cells of s that no function pattern reserves. */
  function Open(ver: Version, s: seq<Pos>): (o: seq<Pos>)
    ensures |o| <= |s|
  {
    if s == [] then []
    else Open(ver, s[..|s| - 1]) + if Reserved(ver, s[|s| - 1].0, s[|s| - 1].1) then [] else [s[|s| - 1]]
  }

  lemma {:induction false} OpenContents(ver: Version, s: seq<Pos>)
    ensures forall cell :: cell in Open(ver, s) <==> cell in s && !Reserved(ver, cell.0, cell.1)
    ensures NoDuplicates(s) ==> NoDuplicates(Open(ver, s))
  {
    hide Reserved;
    if s != [] {
      OpenContents(ver, s[..|s| - 1]);
      assert s == s[..|s| - 1] + [s[|s| - 1]];
    }
  }

  lemma OpenAppend(ver: Version, s: seq<Pos>, cell: Pos)
    ensures Open(ver, s + [cell]) == Open(ver, s) + if Reserved(ver, cell.0, cell.1) then [] else [cell]
  {
    hide Reserved;
    assert (s + [cell])[..|s|] == s;
  }

  /** The modules that carry data, in placement order. */
  function DataModules(ver: Version): seq<Pos> {
    Open(ver, FullWalk(Size(ver)))
  }

  /** Every module is either reserved or a data module, and no data module repeats. */
  lemma DataModulesPartition(ver: Version)
    ensures forall r, c :: 0 <= r < Size(ver) && 0 <= c < Size(ver) ==>
              (Reserved(ver, r, c) <==> (r, c) !in DataModules(ver))
    ensures forall cell :: cell in DataModules(ver) ==> 0 <= cell.0 < Size(ver) && 0 <= cell.1 < Size(ver)
    ensures NoDuplicates(DataModules(ver))
  {
    FullWalkVisits(Size(ver));
    OpenContents(ver, FullWalk(Size(ver)));
  }
}
