/** The matrix part of _build_matrix in src/anbar/qrcode.py: the matrix is written in place, one
  * group of modules after the other; an unset module is the source's None. */
module QrMatrix {
  import opened QrLayout

  datatype Cell = Unset | Module(dark: bool)

  // ----- what the function patterns look like -----

  /** The 7x7 rings, as a function of the offset inside a finder; its separator is light. */
  predicate FinderRing(r: int, c: int) {
    0 <= r <= 6 && 0 <= c <= 6 && (r == 0 || r == 6 || c == 0 || c == 6 || (2 <= r <= 4 && 2 <= c <= 4))
  }

  /** The offset of x from the nearest finder origin (0 or n - 7). */
  function FinderOffset(n: nat, x: int): int {
    if x >= n - 8 then x - (n - 7) else x
  }

  predicate FinderDark(n: nat, r: int, c: int) {
    FinderRing(FinderOffset(n, r), FinderOffset(n, c))
  }

  predicate TimingDark(r: int, c: int) {
    if r == 6 then c % 2 == 0 else r % 2 == 0
  }

  /** A 5x5 ring with a dark centre. */
  predicate AlignRing(dr: int, dc: int) {
    dr == -2 || dr == 2 || dc == -2 || dc == 2 || (dr == 0 && dc == 0)
  }

  predicate AlignDark(ver: Version, r: int, c: int)
    requires InAlign(ver, r, c)
  {
    AlignRing(r - AlignPos(ver)[AlignIndex(ver, r)], c - AlignPos(ver)[AlignIndex(ver, c)])
  }

  /** The matrix once all function patterns are drawn; format modules are still light. */
  function PatternCell(ver: Version, r: int, c: int): Cell {
    var n := Size(ver);
    if r == n - 8 && c == 8 then Module(true)
    else if InFinder(n, r, c) then Module(FinderDark(n, r, c))
    else if InTiming(n, r, c) then Module(TimingDark(r, c))
    else if InAlign(ver, r, c) then Module(AlignDark(ver, r, c))
    else if InFormat(n, r, c) then Module(false)
    else Unset
  }

  ghost predicate Square(m: array2<Cell>, n: nat) {
    m.Length0 == n && m.Length1 == n
  }

  // ----- finders -----

  function FinderStamp(row: int, col: int, r: int, c: int, before: Cell): Cell {
    if -1 <= r - row <= 7 && -1 <= c - col <= 7 then Module(FinderRing(r - row, c - col)) else before
  }

  /** set_finder: the rings, then the light separator where it lies inside the matrix. */
  method SetFinder(m: array2<Cell>, n: nat, row: nat, col: nat)
    requires Square(m, n) && row + 7 <= n && col + 7 <= n
    modifies m
    ensures forall r, c :: 0 <= r < n && 0 <= c < n ==> m[r, c] == FinderStamp(row, col, r, c, old(m[r, c]))
  {
    for r := 0 to 7
      invariant forall y, x :: 0 <= y < n && 0 <= x < n ==>
        m[y, x] == if 0 <= y - row < r && 0 <= x - col <= 6 then Module(FinderRing(y - row, x - col)) else old(m[y, x])
    {
      for c := 0 to 7
        invariant forall y, x :: 0 <= y < n && 0 <= x < n ==>
          m[y, x] == if 0 <= x - col <= 6 && (0 <= y - row < r || (y - row == r && x - col < c))
                     then Module(FinderRing(y - row, x - col)) else old(m[y, x])
      {
        var ring := r == 0 || r == 6 || c == 0 || c == 6;
        var core := 2 <= r <= 4 && 2 <= c <= 4;
        m[row + r, col + c] := Module(ring || core);
      }
    }
    for r := -1 to 8
      invariant forall y, x :: 0 <= y < n && 0 <= x < n ==>
        m[y, x] == if (-1 <= y - row < r && -1 <= x - col <= 7) || (0 <= y - row <= 6 && 0 <= x - col <= 6)
                   then Module(FinderRing(y - row, x - col)) else old(m[y, x])
    {
      for c := -1 to 8
        invariant forall y, x :: 0 <= y < n && 0 <= x < n ==>
          m[y, x] == if (-1 <= y - row < r && -1 <= x - col <= 7) || (y - row == r && -1 <= x - col < c)
                        || (0 <= y - row <= 6 && 0 <= x - col <= 6)
                     then Module(FinderRing(y - row, x - col)) else old(m[y, x])
      {
        if !(0 <= r <= 6 && 0 <= c <= 6) {
          var rr, cc := row + r, col + c;
          if 0 <= rr < n && 0 <= cc < n {
            m[rr, cc] := Module(false);
          }
        }
      }
    }
  }

  /** The three finders and the timing lines. */
  method DrawFindersAndTiming(m: array2<Cell>, n: nat)
    requires Square(m, n) && n >= 21
    requires forall r, c :: 0 <= r < n && 0 <= c < n ==> m[r, c] == Unset
    modifies m
    ensures forall r, c :: 0 <= r < n && 0 <= c < n ==>
      m[r, c] == if InFinder(n, r, c) then Module(FinderDark(n, r, c))
                 else if InTiming(n, r, c) then Module(TimingDark(r, c))
                 else Unset
  {
    SetFinder(m, n, 0, 0);
    SetFinder(m, n, 0, n - 7);
    SetFinder(m, n, n - 7, 0);
    assert forall r, c :: 0 <= r < n && 0 <= c < n ==>
      m[r, c] == if InFinder(n, r, c) then Module(FinderDark(n, r, c)) else Unset;
    for i := 8 to n - 8
      invariant forall r, c :: 0 <= r < n && 0 <= c < n ==>
        m[r, c] == if InFinder(n, r, c) then Module(FinderDark(n, r, c))
                   else if (r == 6 && 8 <= c < i) || (c == 6 && 8 <= r < i) then Module(TimingDark(r, c))
                   else Unset
    {
      m[6, i] := Module(i % 2 == 0);
      m[i, 6] := Module(i % 2 == 0);
    }
  }

  // ----- alignment squares, dark module, format area -----

  /** One 5x5 square, drawn over whatever is there. */
  method DrawSquare(m: array2<Cell>, n: nat, r: nat, c: nat)
    requires Square(m, n) && 2 <= r < n - 2 && 2 <= c < n - 2
    modifies m
    ensures forall y, x :: 0 <= y < n && 0 <= x < n ==>
      m[y, x] == if Close(y, r) && Close(x, c) then Module(AlignRing(y - r, x - c)) else old(m[y, x])
  {
    for dr := -2 to 3
      invariant forall y, x :: 0 <= y < n && 0 <= x < n ==>
        m[y, x] == if -2 <= y - r < dr && Close(x, c) then Module(AlignRing(y - r, x - c)) else old(m[y, x])
    {
      for dc := -2 to 3
        invariant forall y, x :: 0 <= y < n && 0 <= x < n ==>
          m[y, x] == if (-2 <= y - r < dr && Close(x, c)) || (y - r == dr && -2 <= x - c < dc)
                     then Module(AlignRing(y - r, x - c)) else old(m[y, x])
      {
        var ring := dr == -2 || dr == 2 || dc == -2 || dc == 2;
        var core := dr == 0 && dc == 0;
        m[r + dr, c + dc] := Module(ring || core);
      }
    }
  }

  /** (r, c) lies in a square centred at a coordinate pair that comes before (i, j). */
  predicate SquareDone(ver: Version, r: int, c: int, i: nat, j: nat) {
    InAlign(ver, r, c) && (AlignIndex(ver, r) < i || (AlignIndex(ver, r) == i && AlignIndex(ver, c) < j))
  }

  /** Every pair of alignment coordinates whose centre is still unset gets a square; row 6 and
    * column 6 consist of finder and timing modules, so pairs with the first coordinate are skipped. */
  method DrawAlignment(m: array2<Cell>, ver: Version)
    requires Square(m, Size(ver))
    requires forall r, c :: 0 <= r < Size(ver) && 0 <= c < Size(ver) ==>
      (m[r, c] == Unset <==> !InFinder(Size(ver), r, c) && !InTiming(Size(ver), r, c))
    modifies m
    ensures forall r, c :: 0 <= r < Size(ver) && 0 <= c < Size(ver) ==>
      m[r, c] == if InAlign(ver, r, c) then Module(AlignDark(ver, r, c)) else old(m[r, c])
  {
    hide SquareDone, InAlign, AlignDark, InFinder, InTiming;
    var n, s := Size(ver), AlignPos(ver);
    NoSquares(ver);
    for i := 0 to |s|
      invariant forall r, c :: 0 <= r < n && 0 <= c < n ==>
        m[r, c] == if SquareDone(ver, r, c, i, 0) then Module(AlignDark(ver, r, c)) else old(m[r, c])
    {
      for j := 0 to |s|
        invariant forall r, c :: 0 <= r < n && 0 <= c < n ==>
          m[r, c] == if SquareDone(ver, r, c, i, j) then Module(AlignDark(ver, r, c)) else old(m[r, c])
      {
        Centre(ver, i, j);
        if m[s[i], s[j]] == Unset {
          DrawSquare(m, n, s[i], s[j]);
        }
        SquareStep(ver, i, j);
      }
      RowOfSquares(ver, i);
    }
    AllSquares(ver);
  }

  lemma NoSquares(ver: Version)
    ensures forall r, c :: !SquareDone(ver, r, c, 0, 0)
    ensures forall r, c, i, j :: SquareDone(ver, r, c, i, j) ==> InAlign(ver, r, c)
  {
  }

  /** A centre is free exactly if neither coordinate is the first, and no other square covers it. */
  lemma Centre(ver: Version, i: nat, j: nat)
    requires i < |AlignPos(ver)| && j < |AlignPos(ver)|
    ensures var s, n := AlignPos(ver), Size(ver);
            && !SquareDone(ver, s[i], s[j], i, j)
            && (!InFinder(n, s[i], s[j]) && !InTiming(n, s[i], s[j]) <==> i > 0 && j > 0)
            && s[i] < n && s[j] < n && (i > 0 ==> 2 <= s[i] < n - 2)
  {
  }

  /** The square of (i, j), if it is drawn, is what is done next. */
  lemma SquareStep(ver: Version, i: nat, j: nat)
    requires i < |AlignPos(ver)| && j < |AlignPos(ver)|
    ensures forall r, c :: SquareDone(ver, r, c, i, j + 1) <==>
      SquareDone(ver, r, c, i, j) || (i > 0 && j > 0 && Close(r, AlignPos(ver)[i]) && Close(c, AlignPos(ver)[j]))
    ensures i > 0 && j > 0 ==> forall r: int, c: int :: Close(r, AlignPos(ver)[i]) && Close(c, AlignPos(ver)[j]) ==>
      InAlign(ver, r, c) && AlignDark(ver, r, c) == AlignRing(r - AlignPos(ver)[i], c - AlignPos(ver)[j])
  {
  }

  lemma RowOfSquares(ver: Version, i: nat)
    requires i < |AlignPos(ver)|
    ensures forall r, c :: SquareDone(ver, r, c, i, |AlignPos(ver)|) <==> SquareDone(ver, r, c, i + 1, 0)
  {
  }

  lemma AllSquares(ver: Version)
    ensures forall r, c :: SquareDone(ver, r, c, |AlignPos(ver)|, 0) <==> InAlign(ver, r, c)
  {
  }

  /** Sets the unset modules of the two format areas, for now to light. */
  method ReserveFormat(m: array2<Cell>, n: nat)
    requires Square(m, n) && n >= 21
    modifies m
    ensures forall r, c :: 0 <= r < n && 0 <= c < n ==>
      m[r, c] == if InFormat(n, r, c) && old(m[r, c]) == Unset then Module(false) else old(m[r, c])
  {
    for i := 0 to 9
      invariant forall r, c :: 0 <= r < n && 0 <= c < n ==>
        m[r, c] == if ((r == 8 && c < i) || (c == 8 && r < i)) && old(m[r, c]) == Unset then Module(false)
            else old(m[r, c])
    {
      if m[8, i] == Unset { m[8, i] := Module(false); }
      if m[i, 8] == Unset { m[i, 8] := Module(false); }
    }
    for i := n - 8 to n
      invariant forall r, c :: 0 <= r < n && 0 <= c < n ==>
        m[r, c] == if ((r == 8 && (c < 9 || n - 8 <= c < i)) || (c == 8 && (r < 9 || n - 8 <= r < i))) &&
            old(m[r, c]) == Unset
                   then Module(false) else old(m[r, c])
    {
      if m[8, i] == Unset { m[8, i] := Module(false); }
      if m[i, 8] == Unset { m[i, 8] := Module(false); }
    }
  }

  /** All function patterns; the format area is set, still light. */
  method DrawPatterns(m: array2<Cell>, ver: Version)
    requires Square(m, Size(ver))
    requires forall r, c :: 0 <= r < Size(ver) && 0 <= c < Size(ver) ==> m[r, c] == Unset
    modifies m
    ensures forall r, c :: 0 <= r < Size(ver) && 0 <= c < Size(ver) ==> m[r, c] == PatternCell(ver, r, c)
  {
    var n := Size(ver);
    DrawFindersAndTiming(m, n);
    DrawAlignment(m, ver);
    m[n - 8, 8] := Module(true);
    ReserveFormat(m, n);
  }

  /** Exactly the reserved modules carry a pattern. */
  lemma PatternReserved(ver: Version, r: int, c: int)
    ensures PatternCell(ver, r, c) == Unset <==> !Reserved(ver, r, c)
  {
  }

  // ----- data placement -----

  /** Mask 0 inverts the modules with row + column even. */
  predicate Mask(cell: Pos) {
    (cell.0 + cell.1) % 2 == 0
  }

  predicate InRange(n: nat, cell: Pos) {
    0 <= cell.0 < n && 0 <= cell.1 < n
  }

  /** The modules of done hold the first |done| bits, inverted where row + column is even; the others are as
    * the patterns left them. */
  ghost predicate Placed(m: array2<Cell>, ver: Version, bits: seq<bool>, done: seq<Pos>)
    reads m
  {
    && Square(m, Size(ver))
    && (forall k :: 0 <= k < |done| ==>
          && InRange(Size(ver), done[k])
          && m[done[k].0, done[k].1] ==
             Module((k < |bits| && bits[k]) != ((done[k].0 + done[k].1) % 2 == 0)))
    && (forall r, c :: 0 <= r < Size(ver) && 0 <= c < Size(ver) && (r, c) !in done ==>
       m[r, c] == PatternCell(ver, r, c))
  }

  /** The innermost step of the zigzag: fill one module unless it is set. */
  method PlaceModule(m: array2<Cell>, ver: Version, bits: seq<bool>, row: int, c: int, bit_i: nat, ghost done: seq<Pos>)
    returns (next: nat, ghost done': seq<Pos>)
    requires Placed(m, ver, bits, done) && bit_i == |done|
    requires InRange(Size(ver), (row, c)) && (row, c) !in done
    modifies m
    ensures done' == done + if Reserved(ver, row, c) then [] else [(row, c)]
    ensures Placed(m, ver, bits, done') && next == |done'|
  {
    hide Reserved, PatternCell;
    PatternReserved(ver, row, c);
    next, done' := bit_i, done;
    if m[row, c] == Unset {
      var bit := false;
      if bit_i < |bits| {
        bit := bits[bit_i];
      }
      next := bit_i + 1;
      if Mask((row, c)) {
        bit := !bit;
      }
      m[row, c] := Module(bit);
      done' := done + [(row, c)];
    }
  }

  /** The two cells of a row are new, and extend the walk. */
  lemma RowOnWalk(ver: Version, p: nat, i: nat, a: Pos, b: Pos)
    requires p < HalfSize(ver) && i < Size(ver)
    requires RowCells(Size(ver), p, i) == [a, b]
    ensures InRange(Size(ver), a) && InRange(Size(ver), b)
    ensures a !in Open(ver, Walk(Size(ver), p, i))
    ensures b !in Open(ver, Walk(Size(ver), p, i)) && a != b
    ensures Open(ver, Walk(Size(ver), p, i + 1)) == Open(ver, Walk(Size(ver), p, i))
              + (if Reserved(ver, a.0, a.1) then [] else [a]) + (if Reserved(ver, b.0, b.1) then [] else [b])
  {
    hide Reserved, Open, Size, HalfSize;
    var n, before := Size(ver), Walk(Size(ver), p, i);
    RowCellsFacts(n, p, i, a);
    RowCellsFacts(n, p, i, b);
    WalkVisits(n, p, i);
    OpenContents(ver, before);
    OpenAppend(ver, before, a);
    OpenAppend(ver, before + [a], b);
    assert Walk(n, p, i + 1) == before + [a] + [b];
  }

  /** The two modules of one row of a column pair. */
  method PlaceRow(m: array2<Cell>, ver: Version, bits: seq<bool>, ghost p: nat, ghost i: nat, row: int, col: int,
          bit_i: nat)
    returns (next: nat)
    requires p < HalfSize(ver) && i < Size(ver)
    requires row == PairRow(Size(ver), p, i) && col == PairColumn(Size(ver), p)
    requires Placed(m, ver, bits, Open(ver, Walk(Size(ver), p, i))) && bit_i == |Open(ver, Walk(Size(ver), p, i))|
    modifies m
    ensures Placed(m, ver, bits, Open(ver, Walk(Size(ver), p, i + 1))) && next == |Open(ver, Walk(Size(ver), p, i + 1))|
  {
    hide Reserved, PatternCell, Mask, Placed, Open, Walk, Size, HalfSize;
    RowOnWalk(ver, p, i, (row, col), (row, col - 1));
    ghost var done;
    next, done := PlaceModule(m, ver, bits, row, col, bit_i, Open(ver, Walk(Size(ver), p, i)));
    next, done := PlaceModule(m, ver, bits, row, col - 1, next, done);
  }

  /** One column pair, top to bottom or bottom to top. */
  method PlacePair(m: array2<Cell>, ver: Version, bits: seq<bool>, ghost p: nat, col: int, upward: bool, bit_i: nat)
    returns (next: nat)
    requires p < HalfSize(ver) && upward == (p % 2 == 0) && col == PairColumn(Size(ver), p)
    requires Placed(m, ver, bits, Open(ver, Walk(Size(ver), p, 0))) && bit_i == |Open(ver, Walk(Size(ver), p, 0))|
    modifies m
    ensures Placed(m, ver, bits, Open(ver, Walk(Size(ver), p + 1, 0))) && next == |Open(ver, Walk(Size(ver), p + 1, 0))|
  {
    hide Reserved, PatternCell, Mask, Placed, Open;
    var n := Size(ver);
    next := bit_i;
    for i := 0 to n
      invariant Placed(m, ver, bits, Open(ver, Walk(n, p, i))) && next == |Open(ver, Walk(n, p, i))|
    {
      var row := if upward then n - 1 - i else i;
      next := PlaceRow(m, ver, bits, p, i, row, col, next);
    }
    assert Walk(n, p + 1, 0) == Walk(n, p, n);
  }

  lemma NothingPlaced(m: array2<Cell>, ver: Version, bits: seq<bool>)
    requires Square(m, Size(ver))
    requires forall r, c :: 0 <= r < Size(ver) && 0 <= c < Size(ver) ==> m[r, c] == PatternCell(ver, r, c)
    ensures Placed(m, ver, bits, Open(ver, Walk(Size(ver), 0, 0))) && Open(ver, Walk(Size(ver), 0, 0)) == []
  {
    hide Reserved, PatternCell;
  }

  lemma NothingUnset(m: array2<Cell>, ver: Version, bits: seq<bool>)
    requires Placed(m, ver, bits, DataModules(ver))
    ensures forall r, c :: 0 <= r < Size(ver) && 0 <= c < Size(ver) ==> m[r, c] != Unset
  {
    hide Reserved, PatternCell, Mask, DataModules;
    DataModulesPartition(ver);
    var n, d := Size(ver), DataModules(ver);
    forall r, c | 0 <= r < n && 0 <= c < n
      ensures m[r, c] != Unset
    {
      PatternReserved(ver, r, c);
      if (r, c) in d {
        var k :| 0 <= k < |d| && d[k] == (r, c);
      }
    }
  }

  lemma WalkEnds(ver: Version)
    ensures DataModules(ver) == Open(ver, Walk(Size(ver), HalfSize(ver), 0))
  {
    hide Open, Walk;
  }

  /** The zigzag loop. */
  method PlaceData(m: array2<Cell>, ver: Version, bits: seq<bool>)
    requires Square(m, Size(ver))
    requires forall r, c :: 0 <= r < Size(ver) && 0 <= c < Size(ver) ==> m[r, c] == PatternCell(ver, r, c)
    modifies m
    ensures Placed(m, ver, bits, DataModules(ver))
    ensures forall r, c :: 0 <= r < Size(ver) && 0 <= c < Size(ver) ==> m[r, c] != Unset
  {
    hide PatternCell, Placed, Walk, Open, Size, HalfSize, DataModules;
    var n, bit_i, col, upward := Size(ver), 0, Size(ver) - 1, true;
    ghost var p: nat, half: nat := 0, HalfSize(ver);
    NothingPlaced(m, ver, bits);
    while col > 0
      invariant p <= half && upward == (p % 2 == 0)
      invariant col == if half - p >= 3 then 2 * (half - p) else 2 * (half - p) - 1
      invariant Placed(m, ver, bits, Open(ver, Walk(n, p, 0))) && bit_i == |Open(ver, Walk(n, p, 0))|
      decreases col
    {
      if col == 6 {
        col := col - 1;
      }
      bit_i := PlacePair(m, ver, bits, p, col, upward, bit_i);
      upward := !upward;
      col := col - 2;
      p := p + 1;
    }
    WalkEnds(ver);
    NothingUnset(m, ver, bits);
  }

  // ----- format information -----

  /** Level L and mask 0 with their check bits: 111011111000100. */
  const FORMAT: seq<bool> :=
    [true, true, true, false, true, true, true, true, true, false, false, false, true, false, false]

  /** Bit i of a 15-bit number, the highest one first. */
  predicate FormatBit(number: bv16, i: nat)
    requires i < 15
  {
    number & (0x4000 >> i) != 0
  }

  /** What the format announces.  Without 101010000010010, with which ISO/IEC 18004 disguises it, it is a
    * multiple of 10100110111, the generator of its code, and its five data bits are 01, for level L, and 000,
    * for the mask of table 10 that inverts the modules with row + column even: the one that is used. */
  lemma FormatAnnounces()
    ensures |FORMAT| == 15 && forall i :: 0 <= i < 15 ==> FORMAT[i] == FormatBit(0x77C4, i)
    ensures var word: bv16 := 0x77C4 ^ 0x5412;
            && word == (0x537 << 3) ^ (0x537 << 1)
            && word >> 13 == 1
            && (word >> 10) & 7 == 0 && forall r: int, c: int :: Mask((r, c)) <==> (r + c) % 2 == 0
  {
    forall i | 0 <= i < 15
      ensures FORMAT[i] == FormatBit(0x77C4, i)
    {
      FormatBits();
    }
    assert ((0x77C4 ^ 0x5412 as bv16) >> 10) & 7 == 0;
  }

  lemma FormatBits()
    ensures FormatBit(0x77C4, 0) && FormatBit(0x77C4, 1) && FormatBit(0x77C4, 2) && !FormatBit(0x77C4, 3)
    ensures FormatBit(0x77C4, 4) && FormatBit(0x77C4, 5) && FormatBit(0x77C4, 6) && FormatBit(0x77C4, 7)
    ensures FormatBit(0x77C4, 8) && !FormatBit(0x77C4, 9) && !FormatBit(0x77C4, 10) && !FormatBit(0x77C4, 11)
    ensures FormatBit(0x77C4, 12) && !FormatBit(0x77C4, 13) && !FormatBit(0x77C4, 14)
  {
  }

  /** Which format bit module (r, c) carries, or -1. */
  function FormatIndex(n: nat, r: int, c: int): (i: int)
    ensures -1 <= i < 15
    ensures i >= 0 && 0 <= r < n && 0 <= c < n && n >= 21 ==> InFormat(n, r, c)
  {
    if r == 8 && 0 <= c <= 5 then c
    else if r == 8 && c == 7 then 6
    else if r == 8 && c == 8 then 7
    else if r == 7 && c == 8 then 8
    else if c == 8 && 0 <= r <= 5 then 14 - r
    else if c == 8 && n - 7 <= r < n then n - 1 - r
    else if r == 8 && n - 8 <= c < n then 7 + (c - (n - 8))
    else -1
  }

  /** The first copy, around the top-left finder. */
  method DrawFirstCopy(m: array2<Cell>, n: nat)
    requires Square(m, n) && n >= 21
    modifies m
    ensures forall r, c :: 0 <= r < n && 0 <= c < n ==>
      m[r, c] == if r <= 8 && c <= 8 && FormatIndex(n, r, c) >= 0 then Module(FORMAT[FormatIndex(n, r, c)])
          else old(m[r, c])
  {
    var idx := 0;
    for c := 0 to 6
      invariant idx == c
      invariant forall y, x :: 0 <= y < n && 0 <= x < n ==>
        m[y, x] == if y == 8 && x < c then Module(FORMAT[x]) else old(m[y, x])
    {
      m[8, c] := Module(FORMAT[idx]);
      idx := idx + 1;
    }
    m[8, 7] := Module(FORMAT[6]);
    m[8, 8] := Module(FORMAT[7]);
    m[7, 8] := Module(FORMAT[8]);
    for r := 6 downto 0
      invariant forall y, x :: 0 <= y < n && 0 <= x < n ==>
        m[y, x] == if FormatIndex(n, y, x) >= 0 && x <= 8 && y <= 8 && (x < 8 || r <= y)
            then Module(FORMAT[FormatIndex(n, y, x)])
                   else old(m[y, x])
    {
      m[r, 8] := Module(FORMAT[9 + (5 - r)]);
    }
  }

  /** The second copy, below the bottom-left and left of the top-right finder. */
  method DrawSecondCopy(m: array2<Cell>, n: nat)
    requires Square(m, n) && n >= 21
    modifies m
    ensures forall r, c :: 0 <= r < n && 0 <= c < n ==>
      m[r, c] == if (r > 8 || c > 8) && FormatIndex(n, r, c) >= 0 then Module(FORMAT[FormatIndex(n, r, c)])
          else old(m[r, c])
  {
    var idx := 0;
    for r := n downto n - 7
      invariant idx == n - r
      invariant forall y, x :: 0 <= y < n && 0 <= x < n ==>
        m[y, x] == if x == 8 && r <= y then Module(FORMAT[n - 1 - y]) else old(m[y, x])
    {
      m[r, 8] := Module(FORMAT[idx]);
      idx := idx + 1;
    }
    for c := n - 8 to n
      invariant idx == 7 + (c - (n - 8))
      invariant forall y, x :: 0 <= y < n && 0 <= x < n ==>
        m[y, x] == if x == 8 && n - 7 <= y then Module(FORMAT[n - 1 - y])
                   else if y == 8 && n - 8 <= x < c then Module(FORMAT[7 + (x - (n - 8))])
                   else old(m[y, x])
    {
      m[8, c] := Module(FORMAT[idx]);
      idx := idx + 1;
    }
  }

  method DrawFormat(m: array2<Cell>, n: nat)
    requires Square(m, n) && n >= 21
    modifies m
    ensures forall r, c :: 0 <= r < n && 0 <= c < n ==>
      m[r, c] == if FormatIndex(n, r, c) >= 0 then Module(FORMAT[FormatIndex(n, r, c)]) else old(m[r, c])
  {
    DrawFirstCopy(m, n);
    DrawSecondCopy(m, n);
  }

  /** Both copies carry every format bit: a reader of either copy recovers FORMAT. */
  lemma FormatTwice(n: nat, i: nat)
    requires n >= 21 && i < 15
    ensures exists r, c :: 0 <= r <= 8 && 0 <= c <= 8 && FormatIndex(n, r, c) == i
    ensures exists r, c :: ((r == 8 && n - 8 <= c < n) || (c == 8 && n - 8 <= r < n)) && FormatIndex(n, r, c) == i
  {
    if i < 8 {
      var c := if i < 6 then i else i + 1;
      assert FormatIndex(n, 8, c) == i;
    } else {
      var r := if i == 8 then 7 else 14 - i;
      assert FormatIndex(n, r, 8) == i;
    }
    if i < 7 {
      assert FormatIndex(n, n - 1 - i, 8) == i;
    } else {
      assert FormatIndex(n, 8, n - 8 + (i - 7)) == i;
    }
  }

  // ----- the whole matrix, and reading it back -----

  type Grid = seq<seq<bool>>

  predicate IsSquare(g: Grid, n: nat) {
    |g| == n && forall r :: 0 <= r < n ==> |g[r]| == n
  }

  /** What a reader does: visit the unreserved modules in zigzag order and remove mask 0. */
  function ReadBits(ver: Version, g: Grid): (bits: seq<bool>)
    requires IsSquare(g, Size(ver))
    ensures |bits| == |DataModules(ver)|
  {
    DataModulesPartition(ver);
    var d := DataModules(ver);
    seq(|d|, k requires 0 <= k < |d| => g[d[k].0][d[k].1] != Mask(d[k]))
  }

  /** The first n bits of the message, or the message followed by zeros. */
  function Padded(bits: seq<bool>, n: nat): (r: seq<bool>)
    ensures |r| == n
  {
    if n <= |bits| then bits[..n] else bits + seq(n - |bits|, _ => false)
  }

  /** The colour of a reserved module in the finished symbol. */
  predicate ReservedDark(ver: Version, r: int, c: int)
    requires Reserved(ver, r, c)
  {
    var i := FormatIndex(Size(ver), r, c);
    if i >= 0 then FORMAT[i] else PatternCell(ver, r, c).dark
  }

  /** The matrix part of _build_matrix: the k-th data module carries bit k, inverted where row + column is
    * even, and reading the result back yields the data bits, then zeros. */
  method BuildMatrix(ver: Version, bits: seq<bool>) returns (g: Grid)
    ensures IsSquare(g, Size(ver)) && |g| == 17 + 4 * ver
    ensures var d := DataModules(ver);
            forall k :: 0 <= k < |d| ==>
              && 0 <= d[k].0 < Size(ver) && 0 <= d[k].1 < Size(ver)
              && g[d[k].0][d[k].1] == ((k < |bits| && bits[k]) != ((d[k].0 + d[k].1) % 2 == 0))
    ensures ReadBits(ver, g) == Padded(bits, |DataModules(ver)|)
    ensures forall r, c :: 0 <= r < Size(ver) && 0 <= c < Size(ver) && Reserved(ver, r, c) ==>
              g[r][c] == ReservedDark(ver, r, c)
  {
    hide Reserved, ReservedDark, PatternCell, DataModules, Placed, ReadBits, Padded;
    var n := Size(ver);
    var m := new Cell[n, n]((_, _) => Unset);
    DrawPatterns(m, ver);
    PlaceData(m, ver, bits);
    FinishMatrix(m, ver, bits);
    g := ToGrid(m, n);
    ReadsBack(ver, bits, g);
  }

  lemma ReadsBack(ver: Version, bits: seq<bool>, g: Grid)
    requires IsSquare(g, Size(ver))
    requires var d := DataModules(ver);
             forall k :: 0 <= k < |d| ==>
               && 0 <= d[k].0 < Size(ver) && 0 <= d[k].1 < Size(ver)
               && g[d[k].0][d[k].1] == ((k < |bits| && bits[k]) != ((d[k].0 + d[k].1) % 2 == 0))
    ensures ReadBits(ver, g) == Padded(bits, |DataModules(ver)|)
  {
    hide DataModules, Size;
    var d := DataModules(ver);
    forall k | 0 <= k < |d|
      ensures ReadBits(ver, g)[k] == Padded(bits, |d|)[k]
    {
    }
  }

  method FinishMatrix(m: array2<Cell>, ver: Version, ghost bits: seq<bool>)
    requires Placed(m, ver, bits, DataModules(ver))
    requires forall r, c :: 0 <= r < Size(ver) && 0 <= c < Size(ver) ==> m[r, c] != Unset
    modifies m
    ensures var d := DataModules(ver);
            forall k :: 0 <= k < |d| ==>
              && InRange(Size(ver), d[k])
              && m[d[k].0, d[k].1] == Module((k < |bits| && bits[k]) != ((d[k].0 + d[k].1) % 2 == 0))
    ensures forall r, c :: 0 <= r < Size(ver) && 0 <= c < Size(ver) ==>
              m[r, c] != Unset && (Reserved(ver, r, c) ==> m[r, c] == Module(ReservedDark(ver, r, c)))
  {
    DrawFormat(m, Size(ver));
    DataModulesPartition(ver);
  }

  /** The final conversion to booleans. */
  method ToGrid(m: array2<Cell>, n: nat) returns (g: Grid)
    requires Square(m, n)
    requires forall r, c :: 0 <= r < n && 0 <= c < n ==> m[r, c] != Unset
    ensures IsSquare(g, n)
    ensures forall r, c :: 0 <= r < n && 0 <= c < n ==> g[r][c] == m[r, c].dark
  {
    g := [];
    for r := 0 to n
      invariant |g| == r
      invariant forall y :: 0 <= y < r ==> |g[y]| == n
      invariant forall y, x :: 0 <= y < r && 0 <= x < n ==> g[y][x] == m[y, x].dark
    {
      var line := [];
      for c := 0 to n
        invariant |line| == c
        invariant forall x :: 0 <= x < c ==> line[x] == m[r, x].dark
      {
        line := line + [m[r, c].dark];
      }
      g := g + [line];
    }
  }
}
