/**
 * The Nichess move-index codec: the two lookup tables of AgentCache.
 *
 * Each source square owns 28 consecutive indices. Slots 0..23 are the 5x5
 * neighbourhood scanned row by row (dy outer, dx inner, both from -2 to 2)
 * with the centre skipped; slots 24..27 are the leaps (3,3), (3,-3), (-3,3)
 * and (-3,-3). Off-board targets keep their slot, so the index space is dense.
 */
module NichessCodec {
  import opened NichessConstants

  /** Board geometry of the nichess library. */
  const NumRows: int := 8
  const NumColumns: int := 8

  type Square = i: int | 0 <= i < NumSquares

  function CoordinatesToBoardIndex(x: int, y: int): int
  {
    y * NumColumns + x
  }

  predicate IsOffBoard(x: int, y: int)
  {
    x < 0 || x >= NumColumns || y < 0 || y >= NumRows
  }

  function Column(s: Square): int { s % NumColumns }

  function Row(s: Square): int { s / NumColumns }

  /** On-board coordinates name a square whose column and row are those coordinates. */
  lemma CoordinatesRoundTrip(x: int, y: int)
    requires !IsOffBoard(x, y)
    ensures 0 <= CoordinatesToBoardIndex(x, y) < NumSquares
    ensures Column(CoordinatesToBoardIndex(x, y)) == x && Row(CoordinatesToBoardIndex(x, y)) == y
  {
  }

  // ---------------------------------------------------------------- slots

  predicate InNeighbourhood(dx: int, dy: int)
  {
    -2 <= dx <= 2 && -2 <= dy <= 2 && !(dx == 0 && dy == 0)
  }

  /** Place of (dx, dy) in the 5x5 scan, centre included. */
  function ScanPosition(dx: int, dy: int): int
  {
    (dy + 2) * 5 + (dx + 2)
  }

  /** Slots used up before the scan reaches position k: the centre (position 12) takes none. */
  function SlotsBefore(k: int): int
  {
    if k <= 12 then k else k - 1
  }

  /** The slot of a neighbourhood offset. */
  function NeighbourSlot(dx: int, dy: int): (n: nat)
    requires InNeighbourhood(dx, dy)
    ensures n < 24
  {
    SlotsBefore(ScanPosition(dx, dy))
  }

  /** The offset a slot stands for. */
  function SlotOffset(n: nat): (int, int)
    requires n < NumMaxPossibleMovesForPiece
  {
    if n < 24 then
      var k := if n < 12 then n else n + 1;
      (k % 5 - 2, k / 5 - 2)
    else
      [(3, 3), (3, -3), (-3, 3), (-3, -3)][n - 24]
  }

  /**
   * The 28 slots are the 24 neighbourhood offsets followed by the 4 leaps: no
   * slot is the centre, slots 0..23 are exactly the neighbourhood in scan order,
   * and slots 24..27 are leaps of three squares on both axes.
   */
  lemma SlotsAreTemplate(n: nat)
    requires n < NumMaxPossibleMovesForPiece
    ensures SlotOffset(n) != (0, 0)
    ensures n < 24 ==> InNeighbourhood(SlotOffset(n).0, SlotOffset(n).1)
    ensures n < 24 ==> NeighbourSlot(SlotOffset(n).0, SlotOffset(n).1) == n
    ensures n >= 24 ==> (SlotOffset(n).0 == 3 || SlotOffset(n).0 == -3) && (SlotOffset(n).1 == 3 || SlotOffset(n).1 == -3)
  {
  }

  /** Every neighbourhood offset has the slot its scan position gives it. */
  lemma NeighbourSlotOffset(dx: int, dy: int)
    requires InNeighbourhood(dx, dy)
    ensures SlotOffset(NeighbourSlot(dx, dy)) == (dx, dy)
  {
  }

  /** Distinct slots stand for distinct offsets. */
  lemma SlotOffsetInjective(n: nat, m: nat)
    requires n < NumMaxPossibleMovesForPiece && m < NumMaxPossibleMovesForPiece
    requires SlotOffset(n) == SlotOffset(m)
    ensures n == m
  {
    SlotsAreTemplate(n);
    SlotsAreTemplate(m);
  }

  /** The coordinates slot n points at from src, on the board or not. */
  function SlotTarget(src: Square, n: nat): (int, int)
    requires n < NumMaxPossibleMovesForPiece
  {
    (Column(src) + SlotOffset(n).0, Row(src) + SlotOffset(n).1)
  }

  predicate SlotOnBoard(src: Square, n: nat)
    requires n < NumMaxPossibleMovesForPiece
  {
    !IsOffBoard(SlotTarget(src, n).0, SlotTarget(src, n).1)
  }

  /** dst is the on-board target of some slot of src. */
  ghost predicate Reaches(src: Square, dst: Square)
  {
    exists n: nat :: n < NumMaxPossibleMovesForPiece && SlotOnBoard(src, n)
      && CoordinatesToBoardIndex(SlotTarget(src, n).0, SlotTarget(src, n).1) == dst
  }

  // ------------------------------------------------- the two tables, in closed form

  function Displacement(src: Square, dst: Square): (int, int)
  {
    (Column(dst) - Column(src), Row(dst) - Row(src))
  }

  /** Two offsets of the 5x5 scan at the same scan position are the same offset. */
  lemma ScanPositionInjective(dx1: int, dy1: int, dx2: int, dy2: int)
    ensures (-2 <= dx1 <= 2 && -2 <= dy1 <= 2 && -2 <= dx2 <= 2 && -2 <= dy2 <= 2
      && ScanPosition(dx1, dy1) == ScanPosition(dx2, dy2)) ==> dx1 == dx2 && dy1 == dy2
  {
  }

  /** Two squares at the same displacement from src are the same square. */
  lemma DisplacementInjective(src: Square, a: Square, b: Square)
    ensures Displacement(src, a) == Displacement(src, b) ==> a == b
  {
    DisplacementDetermines(src, a);
    DisplacementDetermines(src, b);
  }

  /** A square is determined by its displacement from another. */
  lemma DisplacementDetermines(src: Square, dst: Square)
    ensures dst == CoordinatesToBoardIndex(Column(src) + Displacement(src, dst).0, Row(src) + Displacement(src, dst).1)
  {
  }

  /**
   * Entry i of the index -> (source, destination) table. A neighbourhood slot
   * always stores the raw y*8+x of its target, even off the board; a leap slot
   * whose target is off the board keeps the vector's default (0, 0).
   */
  function DecodedMove(i: nat): (r: (int, int))
    requires i < MoveSkipIdx
    ensures r.0 == 0 || r.0 == i / NumMaxPossibleMovesForPiece
    ensures 0 <= r.0 < NumSquares
    ensures SlotOnBoard(i / NumMaxPossibleMovesForPiece, i % NumMaxPossibleMovesForPiece) ==> 0 <= r.1 < NumSquares
  {
    var src := i / NumMaxPossibleMovesForPiece;
    var n := i % NumMaxPossibleMovesForPiece;
    var t := SlotTarget(src, n);
    if n < 24 || !IsOffBoard(t.0, t.1) then (src, CoordinatesToBoardIndex(t.0, t.1)) else (0, 0)
  }

  /**
   * Entry [src][dst] of the source -> destination -> index table, computed from
   * the displacement between the two squares; 0 (the vector's default) when no
   * slot of src reaches dst.
   */
  function EncodedIndex(src: Square, dst: Square): (i: nat)
    ensures i < MoveSkipIdx
  {
    var (dx, dy) := Displacement(src, dst);
    var base := src * NumMaxPossibleMovesForPiece;
    if InNeighbourhood(dx, dy) then base + NeighbourSlot(dx, dy)
    else if dx == 3 && dy == 3 then base + 24
    else if dx == 3 && dy == -3 then base + 25
    else if dx == -3 && dy == 3 then base + 26
    else if dx == -3 && dy == -3 then base + 27
    else 0
  }

  // ------------------------------------------------- properties of the codec

  /**
   * Round trip from a slot: for every source square and every slot whose target
   * is on the board, the encoder gives back the slot's own index and the decoder
   * maps that index to (src, dst).
   */
  lemma EncodeDecodeRoundTrip(src: Square, n: nat)
    requires n < NumMaxPossibleMovesForPiece && SlotOnBoard(src, n)
    ensures 0 <= CoordinatesToBoardIndex(SlotTarget(src, n).0, SlotTarget(src, n).1) < NumSquares
    ensures var dst := CoordinatesToBoardIndex(SlotTarget(src, n).0, SlotTarget(src, n).1);
      && EncodedIndex(src, dst) == src * NumMaxPossibleMovesForPiece + n
      && DecodedMove(EncodedIndex(src, dst)) == (src, dst)
  {
    var t := SlotTarget(src, n);
    CoordinatesRoundTrip(t.0, t.1);
    SlotsAreTemplate(n);
    SlotIndexSplits(src, n);
  }

  /** Round trip from an index: a slot with an on-board target encodes back to itself. */
  lemma DecodeEncodeRoundTrip(i: nat)
    requires i < MoveSkipIdx
    requires SlotOnBoard(i / NumMaxPossibleMovesForPiece, i % NumMaxPossibleMovesForPiece)
    ensures 0 <= DecodedMove(i).0 < NumSquares && 0 <= DecodedMove(i).1 < NumSquares
    ensures EncodedIndex(DecodedMove(i).0, DecodedMove(i).1) == i
  {
    var src, n := i / NumMaxPossibleMovesForPiece, i % NumMaxPossibleMovesForPiece;
    EncodeDecodeRoundTrip(src, n);
  }

  /**
   * The two tables are mutual inverses on reachable pairs: for every on-board
   * pair that some slot connects, the index lies in the source's block of 28 and
   * decodes to the pair.
   */
  lemma ReachablePairRoundTrip(src: Square, dst: Square)
    requires Reaches(src, dst)
    ensures src * NumMaxPossibleMovesForPiece <= EncodedIndex(src, dst) < src * NumMaxPossibleMovesForPiece + NumMaxPossibleMovesForPiece
    ensures DecodedMove(EncodedIndex(src, dst)) == (src, dst)
  {
    var n: nat :| n < NumMaxPossibleMovesForPiece && SlotOnBoard(src, n)
      && CoordinatesToBoardIndex(SlotTarget(src, n).0, SlotTarget(src, n).1) == dst;
    EncodeDecodeRoundTrip(src, n);
  }

  /** A pair that no slot connects falls back on index 0, which belongs to square 0's first slot. */
  lemma UnreachablePairDefaults(src: Square, dst: Square)
    requires !Reaches(src, dst)
    ensures EncodedIndex(src, dst) == 0
  {
    var dx, dy := Column(dst) - Column(src), Row(dst) - Row(src);
    var n: nat := 0;
    if InNeighbourhood(dx, dy) {
      n := NeighbourSlot(dx, dy);
    } else if dx == 3 && dy == 3 {
      n := 24;
    } else if dx == 3 && dy == -3 {
      n := 25;
    } else if dx == -3 && dy == 3 {
      n := 26;
    } else if dx == -3 && dy == -3 {
      n := 27;
    } else {
      return;
    }
    NeighbourSlotOffset(if InNeighbourhood(dx, dy) then dx else 2, if InNeighbourhood(dx, dy) then dy else 2);
    assert SlotOffset(n) == (dx, dy);
    assert SlotTarget(src, n) == (Column(dst), Row(dst));
    assert CoordinatesToBoardIndex(Column(dst), Row(dst)) == dst;
    assert SlotOnBoard(src, n);
    assert false;
  }

  /**
   * An off-board neighbourhood slot decodes to a raw y*8+x that can name an
   * on-board square the source cannot reach: from square 8 = (0, 1) the offset
   * (-1, 0) decodes to square 7 = (7, 0), whose own index is elsewhere.
   */
  lemma OffBoardSlotAliases()
    ensures !SlotOnBoard(8, NeighbourSlot(-1, 0))
    ensures DecodedMove(8 * NumMaxPossibleMovesForPiece + NeighbourSlot(-1, 0)) == (8, 7)
    ensures EncodedIndex(8, 7) != 8 * NumMaxPossibleMovesForPiece + NeighbourSlot(-1, 0)
  {
    SlotIndexSplits(8, NeighbourSlot(-1, 0));
    NeighbourSlotOffset(-1, 0);
  }

  // ------------------------------------------------- the builders

  /** The table entry of a neighbourhood slot holds the raw index of its target. */
  lemma NeighbourEntry(src: Square, dx: int, dy: int)
    requires InNeighbourhood(dx, dy)
    ensures src * NumMaxPossibleMovesForPiece + NeighbourSlot(dx, dy) < MoveSkipIdx
    ensures DecodedMove(src * NumMaxPossibleMovesForPiece + NeighbourSlot(dx, dy))
      == (src, CoordinatesToBoardIndex(Column(src) + dx, Row(src) + dy))
  {
    SlotIndexSplits(src, NeighbourSlot(dx, dy));
    NeighbourSlotOffset(dx, dy);
  }

  /** Entries base .. base + k of t are decoded, the rest are as in table. */
  ghost predicate Filled(t: seq<(int, int)>, table: seq<(int, int)>, base: nat, k: nat)
    requires |table| == NumMoves - 1
  {
    && |t| == |table| && base + k <= |t|
    && (forall i :: base <= i < base + k ==> t[i] == DecodedMove(i))
    && (forall i :: 0 <= i < |t| && !(base <= i < base + k) ==> t[i] == table[i])
  }

  /** Writes the entry of neighbourhood offset (dx, dy) at slot n, the running count of the scan. */
  method WriteNeighbour(t: seq<(int, int)>, ghost table: seq<(int, int)>, src: Square, dx: int, dy: int, n: nat)
      returns (t': seq<(int, int)>)
    requires InNeighbourhood(dx, dy) && |table| == NumMoves - 1
    requires n == NeighbourSlot(dx, dy)
    requires Filled(t, table, src * NumMaxPossibleMovesForPiece, n)
    ensures Filled(t', table, src * NumMaxPossibleMovesForPiece, n + 1)
  {
    // newX or newY may be off the board: the slot is written all the same.
    var dstSquareIndex := CoordinatesToBoardIndex(Column(src) + dx, Row(src) + dy);
    NeighbourEntry(src, dx, dy);
    t' := t[src * NumMaxPossibleMovesForPiece + n := (src, dstSquareIndex)];
  }

  /** Writes the 24 neighbourhood entries of one source square; n ends as the number of slots used. */
  method WriteNeighbourhood(table: seq<(int, int)>, srcX: int, srcY: int) returns (t: seq<(int, int)>, n: nat)
    requires 0 <= srcX < NumColumns && 0 <= srcY < NumRows
    requires |table| == NumMoves - 1
    ensures n == 24 && |t| == |table|
    ensures var base := CoordinatesToBoardIndex(srcX, srcY) * NumMaxPossibleMovesForPiece;
      && (forall i :: base <= i < base + 24 ==> t[i] == DecodedMove(i))
      && (forall i :: 0 <= i < |t| && !(base <= i < base + 24) ==> t[i] == table[i])
  {
    var srcSquareIndex := CoordinatesToBoardIndex(srcX, srcY);
    CoordinatesRoundTrip(srcX, srcY);
    var base := srcSquareIndex * NumMaxPossibleMovesForPiece;
    t := table;
    n := 0;
    for dy := -2 to 3
      invariant n == SlotsBefore(ScanPosition(-2, dy))
      invariant Filled(t, table, base, n)
    {
      for dx := -2 to 3
        invariant n == SlotsBefore(ScanPosition(dx, dy))
        invariant Filled(t, table, base, n)
      {
        if dx == 0 && dy == 0 {
          continue;
        }
        t := WriteNeighbour(t, table, srcSquareIndex, dx, dy, n);
        n := n + 1;
      }
    }
  }

  /** Writes the 28 entries of one source square into the index -> (source, destination) table. */
  method WriteSourceSlots(table: seq<(int, int)>, srcX: int, srcY: int) returns (t: seq<(int, int)>)
    requires 0 <= srcX < NumColumns && 0 <= srcY < NumRows
    requires |table| == NumMoves - 1
    requires var base := CoordinatesToBoardIndex(srcX, srcY) * NumMaxPossibleMovesForPiece;
      forall i :: base <= i < base + NumMaxPossibleMovesForPiece ==> table[i] == (0, 0)
    ensures |t| == |table|
    ensures var base := CoordinatesToBoardIndex(srcX, srcY) * NumMaxPossibleMovesForPiece;
      && (forall i :: base <= i < base + NumMaxPossibleMovesForPiece ==> t[i] == DecodedMove(i))
      && (forall i :: 0 <= i < |t| && !(base <= i < base + NumMaxPossibleMovesForPiece) ==> t[i] == table[i])
  {
    var srcSquareIndex := CoordinatesToBoardIndex(srcX, srcY);
    CoordinatesRoundTrip(srcX, srcY);
    var n;
    t, n := WriteNeighbourhood(table, srcX, srcY);
    // 4 extra moves:
    t := WriteLeap(t, table, srcSquareIndex, n);
    n := n + 1;
    t := WriteLeap(t, table, srcSquareIndex, n);
    n := n + 1;
    t := WriteLeap(t, table, srcSquareIndex, n);
    n := n + 1;
    t := WriteLeap(t, table, srcSquareIndex, n);
    n := n + 1;
    assert Filled(t, table, srcSquareIndex * NumMaxPossibleMovesForPiece, n);
  }

  /** One leap slot: written only when its target is on the board. */
  method WriteLeap(t: seq<(int, int)>, ghost table: seq<(int, int)>, src: Square, n: nat) returns (t': seq<(int, int)>)
    requires 24 <= n < NumMaxPossibleMovesForPiece && |table| == NumMoves - 1
    requires Filled(t, table, src * NumMaxPossibleMovesForPiece, n)
    requires table[src * NumMaxPossibleMovesForPiece + n] == (0, 0)
    ensures Filled(t', table, src * NumMaxPossibleMovesForPiece, n + 1)
  {
    SlotIndexSplits(src, n);
    var target := SlotTarget(src, n);
    t' := t;
    if !IsOffBoard(target.0, target.1) {
      var dstSquareIndex := CoordinatesToBoardIndex(target.0, target.1);
      t' := t'[src * NumMaxPossibleMovesForPiece + n := (src, dstSquareIndex)];
    }
  }

  /** Builds the index -> (source, destination) table, source square by source square. */
  method GenerateMoveIndexToSrcSquareAndDstSquare() returns (table: seq<(int, int)>)
    ensures |table| == NumMoves - 1
    ensures forall i :: 0 <= i < |table| ==> table[i] == DecodedMove(i)
  {
    // The last index is reserved for MOVE_SKIP, which has no source and destination.
    table := seq(NumMoves - 1, _ => (0, 0));
    for srcY := 0 to NumRows
      invariant |table| == NumMoves - 1
      invariant forall i :: 0 <= i < srcY * NumColumns * NumMaxPossibleMovesForPiece ==> table[i] == DecodedMove(i)
      invariant forall i :: srcY * NumColumns * NumMaxPossibleMovesForPiece <= i < |table| ==> table[i] == (0, 0)
    {
      for srcX := 0 to NumColumns
        invariant |table| == NumMoves - 1
        invariant forall i :: 0 <= i < (srcY * NumColumns + srcX) * NumMaxPossibleMovesForPiece ==> table[i] == DecodedMove(i)
        invariant forall i :: (srcY * NumColumns + srcX) * NumMaxPossibleMovesForPiece <= i < |table| ==> table[i] == (0, 0)
      {
        table := WriteSourceSlots(table, srcX, srcY);
      }
    }
  }

  /** Which of the four leaps an offset is, in the builders' order; 4 for none. */
  function LeapNumber(d: (int, int)): nat
  {
    if d == (3, 3) then 0
    else if d == (3, -3) then 1
    else if d == (-3, 3) then 2
    else if d == (-3, -3) then 3
    else 4
  }

  /** The entries of a row of the source -> destination -> index table once the scan has passed position k. */
  ghost predicate RowScanned(row: seq<int>, src: Square, k: int)
  {
    |row| == NumSquares &&
    forall d: Square :: row[d] ==
      (if InNeighbourhood(Displacement(src, d).0, Displacement(src, d).1)
          && ScanPosition(Displacement(src, d).0, Displacement(src, d).1) < k
       then EncodedIndex(src, d) else 0)
  }

  /** The entries of a row once the neighbourhood and the first j leaps are done. */
  ghost predicate RowLeapsDone(row: seq<int>, src: Square, j: nat)
  {
    |row| == NumSquares &&
    forall d: Square :: row[d] ==
      (if InNeighbourhood(Displacement(src, d).0, Displacement(src, d).1) || LeapNumber(Displacement(src, d)) < j
       then EncodedIndex(src, d) else 0)
  }

  /** Fills the destination -> index row of one source square. */
  method GenerateRow(srcX: int, srcY: int) returns (row: seq<int>)
    requires 0 <= srcX < NumColumns && 0 <= srcY < NumRows
    ensures |row| == NumSquares
    ensures forall d: Square :: row[d] == EncodedIndex(CoordinatesToBoardIndex(srcX, srcY), d)
  {
    var srcSquareIndex := CoordinatesToBoardIndex(srcX, srcY);
    CoordinatesRoundTrip(srcX, srcY);
    var base := srcSquareIndex * NumMaxPossibleMovesForPiece;
    row := seq(NumSquares, _ => 0);
    var n := 0;
    for dy := -2 to 3
      invariant n == SlotsBefore(ScanPosition(-2, dy))
      invariant RowScanned(row, srcSquareIndex, ScanPosition(-2, dy))
    {
      for dx := -2 to 3
        invariant n == SlotsBefore(ScanPosition(dx, dy))
        invariant RowScanned(row, srcSquareIndex, ScanPosition(dx, dy))
      {
        var newX, newY := srcX + dx, srcY + dy;
        if IsOffBoard(newX, newY) {
          ScanOffBoard(row, srcSquareIndex, dx, dy);
          n := n + 1;
          continue;
        }
        if dx == 0 && dy == 0 {
          continue;
        }
        var dstSquareIndex := CoordinatesToBoardIndex(newX, newY);
        CoordinatesRoundTrip(newX, newY);
        row := ScanWrite(row, srcSquareIndex, dx, dy, dstSquareIndex, base + n);
        n := n + 1;
      }
    }
    // 4 extra moves:
    assert n == 24;
    row := WriteLeapEntry(row, srcSquareIndex, 0, base + n);
    n := n + 1;
    row := WriteLeapEntry(row, srcSquareIndex, 1, base + n);
    n := n + 1;
    row := WriteLeapEntry(row, srcSquareIndex, 2, base + n);
    n := n + 1;
    row := WriteLeapEntry(row, srcSquareIndex, 3, base + n);
    n := n + 1;
  }

  /** Passing an off-board offset (or the centre) changes no entry of the row. */
  lemma ScanOffBoard(row: seq<int>, src: Square, dx: int, dy: int)
    requires -2 <= dx <= 2 && -2 <= dy <= 2
    requires RowScanned(row, src, ScanPosition(dx, dy))
    requires IsOffBoard(Column(src) + dx, Row(src) + dy) || (dx == 0 && dy == 0)
    ensures RowScanned(row, src, ScanPosition(dx, dy) + 1)
  {
    forall d: Square
      ensures var e := Displacement(src, d);
        InNeighbourhood(e.0, e.1) ==> ScanPosition(e.0, e.1) != ScanPosition(dx, dy)
    {
      var e := Displacement(src, d);
      ScanPositionInjective(e.0, e.1, dx, dy);
    }
  }

  /** Writing the slot index of an on-board neighbourhood target advances the scan by one position. */
  method ScanWrite(row: seq<int>, src: Square, dx: int, dy: int, dst: Square, index: int) returns (r: seq<int>)
    requires RowScanned(row, src, ScanPosition(dx, dy))
    requires InNeighbourhood(dx, dy) && Displacement(src, dst) == (dx, dy)
    requires index == src * NumMaxPossibleMovesForPiece + SlotsBefore(ScanPosition(dx, dy))
    ensures RowScanned(r, src, ScanPosition(dx, dy) + 1)
  {
    r := row[dst := index];
    forall d: Square
      ensures r[d] ==
        (if InNeighbourhood(Displacement(src, d).0, Displacement(src, d).1)
            && ScanPosition(Displacement(src, d).0, Displacement(src, d).1) < ScanPosition(dx, dy) + 1
         then EncodedIndex(src, d) else 0)
    {
      var e := Displacement(src, d);
      ScanPositionInjective(e.0, e.1, dx, dy);
      DisplacementInjective(src, d, dst);
    }
  }

  /** Leap j's entry, the slot index passed as index, written only when the leap lands on the board. */
  method WriteLeapEntry(row: seq<int>, src: Square, j: nat, index: int) returns (r: seq<int>)
    requires j < 4 && index == src * NumMaxPossibleMovesForPiece + 24 + j
    requires RowLeapsDone(row, src, j) || (j == 0 && RowScanned(row, src, 25))
    ensures RowLeapsDone(r, src, j + 1)
  {
    if j == 0 && RowScanned(row, src, 25) {
      forall d: Square
        ensures InNeighbourhood(Displacement(src, d).0, Displacement(src, d).1)
          ==> ScanPosition(Displacement(src, d).0, Displacement(src, d).1) < 25
      {
      }
      assert RowLeapsDone(row, src, 0);
    }
    var offset := SlotOffset(24 + j);
    var newX, newY := Column(src) + offset.0, Row(src) + offset.1;
    r := row;
    if !IsOffBoard(newX, newY) {
      var dstSquareIndex := CoordinatesToBoardIndex(newX, newY);
      CoordinatesRoundTrip(newX, newY);
      r := row[dstSquareIndex := index];
      forall d: Square | d != dstSquareIndex
        ensures Displacement(src, d) != offset
      {
        DisplacementDetermines(src, d);
      }
    } else {
      forall d: Square
        ensures Displacement(src, d) != offset
      {
        DisplacementDetermines(src, d);
      }
    }
  }

  /** Builds the source -> destination -> index table. */
  method GenerateSrcSquareToDstSquareToMoveIndex() returns (table: seq<seq<int>>)
    ensures |table| == NumSquares
    ensures forall s: Square :: |table[s]| == NumSquares
    ensures forall s: Square, d: Square :: table[s][d] == EncodedIndex(s, d)
  {
    table := seq(NumSquares, _ => []);
    for srcY := 0 to NumRows
      invariant |table| == NumSquares
      invariant forall s: Square :: s < srcY * NumColumns ==> |table[s]| == NumSquares
      invariant forall s: Square, d: Square :: s < srcY * NumColumns ==> table[s][d] == EncodedIndex(s, d)
    {
      for srcX := 0 to NumColumns
        invariant |table| == NumSquares
        invariant forall s: Square :: s < srcY * NumColumns + srcX ==> |table[s]| == NumSquares
        invariant forall s: Square, d: Square :: s < srcY * NumColumns + srcX ==> table[s][d] == EncodedIndex(s, d)
      {
        var srcSquareIndex := CoordinatesToBoardIndex(srcX, srcY);
        var dstSquareToMoveIndex := GenerateRow(srcX, srcY);
        table := table[srcSquareIndex := dstSquareToMoveIndex];
      }
    }
  }

  /** The move-index tables shared by every game wrapper; built once, then only read. */
  class AgentCache {
    const moveIndexToSrcSquareAndDstSquare: seq<(int, int)>
    const srcSquareToDstSquareToMoveIndex: seq<seq<int>>

    ghost predicate Valid()
    {
      && |moveIndexToSrcSquareAndDstSquare| == NumMoves - 1
      && (forall i :: 0 <= i < NumMoves - 1 ==> moveIndexToSrcSquareAndDstSquare[i] == DecodedMove(i))
      && |srcSquareToDstSquareToMoveIndex| == NumSquares
      && (forall s: Square :: |srcSquareToDstSquareToMoveIndex[s]| == NumSquares)
      && (forall s: Square, d: Square :: srcSquareToDstSquareToMoveIndex[s][d] == EncodedIndex(s, d))
    }

    constructor ()
      ensures Valid()
    {
      var decode := GenerateMoveIndexToSrcSquareAndDstSquare();
      var encode := GenerateSrcSquareToDstSquareToMoveIndex();
      moveIndexToSrcSquareAndDstSquare := decode;
      srcSquareToDstSquareToMoveIndex := encode;
    }
  }
}
