/**
 * The position identity of the Brandubh game state: repetition keys compared
 * and hashed by content, key wrappers that share one key, the shared pool of
 * interned keys that a restored state prunes, and the starting layout.
 * Shared pointers are modelled by an explicit map of use counts.
 */
module Brandubh {
  import opened Optional
  import opened Text

  const DefaultMaxTurns: nat := 150

  const KingLayer: nat := 0
  const DefLayer: nat := 1
  const AtkLayer: nat := 2

  /** Player 0, the attackers, moves first; player 1 is the king's side. */
  const AtkPlayer: int := 0
  const DefPlayer: int := 1

  const Width: nat := 7
  const Height: nat := 7
  const NumMoves: nat := Width * Height * (Width + Height)
  const NumPlayers: nat := 2
  const NumSymmetries: nat := 8
  const BoardShape: seq<nat> := [3, Height, Width]
  /** Three board layers, two for the side to move, two for the repetition count. */
  const CanonicalShape: seq<nat> := [7, Height, Width]

  /** The number of cells of a board tensor. */
  const BoardCells: nat := 3 * Height * Width

  lemma ConstantsLayout()
    ensures NumMoves == 686 && BoardCells == 147
    ensures BoardCells == BoardShape[0] * BoardShape[1] * BoardShape[2]
  {
  }

  // ============================================================ board tensors

  /** A 3x7x7 tensor of cells, flattened in storage order. */
  type BoardTensor = t: seq<int> | |t| == BoardCells witness seq(BoardCells, _ => 0)

  /** The storage position of cell (layer, row, column). */
  function CellIndex(layer: int, row: int, col: int): (n: int)
    requires 0 <= layer < 3 && 0 <= row < Height && 0 <= col < Width
    ensures 0 <= n < BoardCells
  {
    (layer * Height + row) * Width + col
  }

  /** Each storage position is exactly one cell. */
  lemma CellIndexBijective(l: int, r: int, c: int, l': int, r': int, c': int)
    requires 0 <= l < 3 && 0 <= r < Height && 0 <= c < Width
    requires 0 <= l' < 3 && 0 <= r' < Height && 0 <= c' < Width
    ensures CellIndex(l, r, c) == CellIndex(l', r', c') <==> (l, r, c) == (l', r', c')
  {
  }

  // ============================================================ repetition keys

  /** A board and the side to move. */
  class RepetitionKey {
    const t: BoardTensor
    const p: int

    constructor (tensor: BoardTensor, player: int)
      ensures t == tensor && p == player
    {
      t := tensor;
      p := player;
    }
  }

  /** A shared pointer to a key; copying it shares the key instead of copying the tensor. */
  class RepetitionKeyWrapper {
    const data: RepetitionKey

    constructor (tensor: BoardTensor, player: int)
      ensures fresh(data) && data.t == tensor && data.p == player
    {
      data := new RepetitionKey(tensor, player);
    }

    constructor Copy(rkw: RepetitionKeyWrapper)
      ensures data == rkw.data
    {
      data := rkw.data;
    }
  }

  /** The cells from n on agree, compared in the order of the triple loop. */
  predicate CellsEqualFrom(a: BoardTensor, b: BoardTensor, n: nat)
    requires n <= BoardCells
    decreases BoardCells - n
  {
    n == BoardCells || (a[n] == b[n] && CellsEqualFrom(a, b, n + 1))
  }

  lemma {:induction false} CellsEqualFromMeans(a: BoardTensor, b: BoardTensor, n: nat)
    requires n <= BoardCells
    ensures CellsEqualFrom(a, b, n) <==> a[n..] == b[n..]
    decreases BoardCells - n
  {
    if n < BoardCells {
      CellsEqualFromMeans(a, b, n + 1);
      assert a[n..] == [a[n]] + a[n + 1..];
      assert b[n..] == [b[n]] + b[n + 1..];
    }
  }

  /** operator== on wrappers: every cell, then the player. */
  function KeysEqual(lhs: RepetitionKeyWrapper, rhs: RepetitionKeyWrapper): (r: bool)
    ensures lhs.data == rhs.data ==> r
  {
    CellsEqualFromMeans(lhs.data.t, rhs.data.t, 0);
    CellsEqualFrom(lhs.data.t, rhs.data.t, 0) && rhs.data.p == lhs.data.p
  }

  /** Keys compare by content, not by which key object they share. */
  lemma KeysEqualMeans(lhs: RepetitionKeyWrapper, rhs: RepetitionKeyWrapper)
    ensures KeysEqual(lhs, rhs) <==> lhs.data.t == rhs.data.t && lhs.data.p == rhs.data.p
  {
    CellsEqualFromMeans(lhs.data.t, rhs.data.t, 0);
    assert lhs.data.t[0..] == lhs.data.t && rhs.data.t[0..] == rhs.data.t;
  }

  /** What AbslHashValue combines: the tensor's cells in storage order, then the player. */
  function HashFeed(rkw: RepetitionKeyWrapper): (feed: seq<int>)
    ensures |feed| == BoardCells + 1
  {
    rkw.data.t + [rkw.data.p]
  }

  /** The hash is fed exactly the fields equality compares: equal keys hash alike, and keys fed alike are equal. */
  lemma HashMatchesEquality(lhs: RepetitionKeyWrapper, rhs: RepetitionKeyWrapper)
    ensures KeysEqual(lhs, rhs) <==> HashFeed(lhs) == HashFeed(rhs)
  {
    KeysEqualMeans(lhs, rhs);
    if HashFeed(lhs) == HashFeed(rhs) {
      assert lhs.data.t == HashFeed(lhs)[..BoardCells];
      assert rhs.data.t == HashFeed(rhs)[..BoardCells];
      assert HashFeed(lhs)[BoardCells] == HashFeed(rhs)[BoardCells];
    }
  }

  // ============================================================ shared ownership

  /** The use counts of the shared pointers to each key. */
  class KeyHeap {
    var useCount: map<RepetitionKey, nat>

    constructor ()
      ensures useCount == map[]
    {
      useCount := map[];
    }

    /** A wrapper around a new key: the key's only owner. */
    method NewWrapper(tensor: BoardTensor, player: int) returns (w: RepetitionKeyWrapper)
      modifies this
      ensures fresh(w) && fresh(w.data) && w.data.t == tensor && w.data.p == player
      ensures useCount == old(useCount)[w.data := 1]
    {
      w := new RepetitionKeyWrapper(tensor, player);
      useCount := useCount[w.data := 1];
    }

    /** The copy constructor: the same key, with one more owner. */
    method CopyWrapper(rkw: RepetitionKeyWrapper) returns (w: RepetitionKeyWrapper)
      requires rkw.data in useCount
      modifies this
      ensures fresh(w) && w.data == rkw.data
      ensures useCount == old(useCount)[rkw.data := old(useCount)[rkw.data] + 1]
    {
      w := new RepetitionKeyWrapper.Copy(rkw);
      useCount := useCount[rkw.data := useCount[rkw.data] + 1];
    }

    /** A wrapper is destroyed: its key has one owner fewer. */
    method Release(w: RepetitionKeyWrapper)
      requires w.data in useCount && useCount[w.data] >= 1
      modifies this
      ensures useCount == old(useCount)[w.data := old(useCount)[w.data] - 1]
    {
      useCount := useCount[w.data := useCount[w.data] - 1];
    }
  }

  /** The entries of a pool that the pool alone owns. */
  function Unshared(entries: set<RepetitionKeyWrapper>, count: map<RepetitionKey, nat>): set<RepetitionKeyWrapper>
  {
    set e | e in entries && e.data in count && count[e.data] == 1
  }

  /** The pool after pruning: the entries some other owner still holds. */
  function Pruned(entries: set<RepetitionKeyWrapper>, count: map<RepetitionKey, nat>): (r: set<RepetitionKeyWrapper>)
    ensures r <= entries
  {
    entries - Unshared(entries, count)
  }

  /**
   * Pruning adds nothing, keeps every entry with another owner and removes every
   * entry the pool alone owns.
   */
  lemma PrunedMembers(entries: set<RepetitionKeyWrapper>, count: map<RepetitionKey, nat>, e: RepetitionKeyWrapper)
    requires forall x :: x in entries ==> x.data in count
    ensures e in Pruned(entries, count) ==> e in entries
    ensures e in entries && count[e.data] != 1 ==> e in Pruned(entries, count)
    ensures e in entries && count[e.data] == 1 ==> e !in Pruned(entries, count)
  {
  }

  /** With the counts unchanged, pruning a pruned pool removes nothing more. */
  lemma PruneIdempotent(entries: set<RepetitionKeyWrapper>, count: map<RepetitionKey, nat>)
    ensures Pruned(Pruned(entries, count), count) == Pruned(entries, count)
  {
  }

  /** The shared set of interned key wrappers. */
  class InternPool {
    var entries: set<RepetitionKeyWrapper>

    /** The pool holds one reference to each entry's key, and no two entries have equal keys. */
    ghost predicate Valid(heap: KeyHeap)
      reads this, heap
    {
      && (forall e :: e in entries ==> e.data in heap.useCount && heap.useCount[e.data] >= 1)
      && (forall a, b :: a in entries && b in entries && KeysEqual(a, b) ==> a == b)
    }

    constructor (heap: KeyHeap)
      ensures entries == {} && Valid(heap)
    {
      entries := {};
    }

    /**
     * The pruning loop: visit the entries in any order and erase each one whose
     * key the pool alone owns.
     */
    method Prune(heap: KeyHeap)
      requires Valid(heap)
      modifies this
      ensures entries == Pruned(old(entries), heap.useCount)
      ensures Valid(heap)
    {
      var remaining := entries;
      while remaining != {}
        invariant remaining <= old(entries)
        invariant entries == old(entries) - Unshared(old(entries) - remaining, heap.useCount)
        decreases remaining
      {
        var it :| it in remaining;
        ghost var visited := old(entries) - remaining;
        remaining := remaining - {it};
        assert old(entries) - remaining == visited + {it};
        if heap.useCount[it.data] == 1 {
          entries := entries - {it};
          assert Unshared(visited + {it}, heap.useCount) == Unshared(visited, heap.useCount) + {it};
        } else {
          assert Unshared(visited + {it}, heap.useCount) == Unshared(visited, heap.useCount);
        }
      }
      assert old(entries) - remaining == old(entries);
    }
  }

  // ============================================================ the state

  /** A piece at (layer, row, column). */
  datatype Placement = Placement(layer: nat, row: nat, col: nat)

  /** The default constructor's writes, in order: the king, four defenders, eight attackers. */
  const InitialPieces: seq<Placement> := [
    Placement(KingLayer, 3, 3),
    Placement(DefLayer, 2, 3), Placement(DefLayer, 3, 2), Placement(DefLayer, 4, 3), Placement(DefLayer, 3, 4),
    Placement(AtkLayer, 1, 3), Placement(AtkLayer, 0, 3), Placement(AtkLayer, 3, 1), Placement(AtkLayer, 3, 0),
    Placement(AtkLayer, 5, 3), Placement(AtkLayer, 6, 3), Placement(AtkLayer, 3, 5), Placement(AtkLayer, 3, 6)]

  predicate OnBoard(x: Placement)
  {
    x.layer < 3 && x.row < Height && x.col < Width
  }

  /** The tensor with a 1 at each listed placement and 0 elsewhere. */
  function Layout(pieces: seq<Placement>): BoardTensor
    requires forall x :: x in pieces ==> OnBoard(x)
  {
    seq(BoardCells, n requires 0 <= n < BoardCells =>
      if exists x :: x in pieces && OnBoard(x) && CellIndex(x.layer, x.row, x.col) == n then 1 else 0)
  }

  /** One of the eight rotations and reflections of the 7x7 board, applied to (row, column). */
  function Transform(s: nat, row: int, col: int): (int, int)
    requires s < NumSymmetries
  {
    match s
    case 0 => (row, col)
    case 1 => (col, 6 - row)
    case 2 => (6 - row, 6 - col)
    case 3 => (6 - col, row)
    case 4 => (6 - row, col)
    case 5 => (row, 6 - col)
    case 6 => (col, row)
    case _ => (6 - col, 6 - row)
  }

  function Inverse(s: nat): (r: nat)
    requires s < NumSymmetries
    ensures r < NumSymmetries
  {
    if s == 1 then 3 else if s == 3 then 1 else s
  }

  function Moved(s: nat, x: Placement): Placement
    requires s < NumSymmetries && OnBoard(x)
  {
    var (r, c) := Transform(s, x.row, x.col);
    Placement(x.layer, r, c)
  }

  lemma MovedBack(s: nat, x: Placement)
    requires s < NumSymmetries && OnBoard(x)
    ensures OnBoard(Moved(s, x)) && Moved(Inverse(s), Moved(s, x)) == x
  {
  }

  /**
   * The starting position: thirteen pieces on thirteen different squares (no
   * square on two layers), and the layout maps onto itself under all eight
   * rotations and reflections.
   */
  lemma InitialLayoutShape()
    ensures |InitialPieces| == 13
    ensures forall x :: x in InitialPieces ==> OnBoard(x)
    ensures forall i, j :: 0 <= i < j < |InitialPieces| ==>
      (InitialPieces[i].row, InitialPieces[i].col) != (InitialPieces[j].row, InitialPieces[j].col)
    ensures forall s: nat, x :: s < NumSymmetries && x in InitialPieces ==> Moved(s, x) in InitialPieces
  {
  }

  /**
   * Each of the eight symmetries maps the on-board placements of the starting pieces
   * onto starting placements and no others.
   */
  lemma InitialLayoutSymmetric(s: nat, x: Placement)
    requires s < NumSymmetries && OnBoard(x)
    ensures x in InitialPieces <==> Moved(s, x) in InitialPieces
  {
    InitialLayoutShape();
    if Moved(s, x) in InitialPieces {
      MovedBack(s, x);
      assert Moved(Inverse(s), Moved(s, x)) in InitialPieces;
    }
  }

  /** The piece a rule-string letter stands for, as its layer. */
  function LetterLayer(c: char): Option<nat>
  {
    if c == 'K' then Some(KingLayer)
    else if c == 'T' then Some(DefLayer)
    else if c == 't' then Some(AtkLayer)
    else None
  }

  /** A rank of the rule string with each digit d expanded into d empty squares ('.'). */
  function ExpandRank(rank: string): string
  {
    if rank == [] then []
    else
      var head := if IsDigit(rank[0]) then seq((rank[0] as int) - ('0' as int), _ => '.') else [rank[0]];
      head + ExpandRank(rank[1..])
  }

  /** A rank with one attacker in the middle column, one defender there, and the king's rank. */
  const AttackerRank: string := "3t3"
  const DefenderRank: string := "3T3"
  const KingRank: string := "ttTKTtt"

  /** The start field of the rule string for this variant, "/3t3/3t3/3T3/ttTKTtt/3T3/3t3/3t3/". */
  const RuleStart: string :=
    "/" + (AttackerRank + ("/" + (AttackerRank + ("/" + (DefenderRank + ("/" + (KingRank + ("/" + (DefenderRank
    + ("/" + (AttackerRank + ("/" + (AttackerRank + "/")))))))))))))

  /** The start field puts a piece of x's layer on x's square: rank x.row sits between slashes x.row and x.row + 1. */
  predicate StartHas(start: string, x: Placement)
  {
    var ranks := SplitOn(start, '/');
    && OnBoard(x)
    && x.row + 1 < |ranks|
    && x.col < |ExpandRank(ranks[x.row + 1])|
    && LetterLayer(ExpandRank(ranks[x.row + 1])[x.col]) == Some(x.layer)
  }

  /** The last four ranks, each followed by a slash, are cut back into those ranks and an empty tail. */
  lemma {:induction false} SplitLastRanks(r3: string, r4: string, r5: string, r6: string)
    requires '/' !in r3 && '/' !in r4 && '/' !in r5 && '/' !in r6
    ensures SplitOn(r3 + ("/" + (r4 + ("/" + (r5 + ("/" + (r6 + "/")))))), '/') == [r3, r4, r5, r6, ""]
  {
    var t7 := r6 + "/";
    var t6 := r5 + ("/" + t7);
    var t5 := r4 + ("/" + t6);
    SplitOnNone("", '/');
    assert t7 == r6 + ['/'] + "";
    SplitOnFirst(r6, "", '/');
    assert t6 == r5 + ['/'] + t7;
    SplitOnFirst(r5, t7, '/');
    assert t5 == r4 + ['/'] + t6;
    SplitOnFirst(r4, t6, '/');
    assert r3 + ("/" + t5) == r3 + ['/'] + t5;
    SplitOnFirst(r3, t5, '/');
  }

  /** Seven ranks between slashes are cut back into an empty head, the seven ranks and an empty tail. */
  lemma {:induction false} SplitSevenRanks(r0: string, r1: string, r2: string, r3: string, r4: string, r5: string, r6: string)
    requires '/' !in r0 && '/' !in r1 && '/' !in r2 && '/' !in r3 && '/' !in r4 && '/' !in r5 && '/' !in r6
    ensures SplitOn("/" + (r0 + ("/" + (r1 + ("/" + (r2 + ("/" + (r3 + ("/" + (r4 + ("/" + (r5 + ("/" + (r6 + "/"))))))))))))), '/')
         == ["", r0, r1, r2, r3, r4, r5, r6, ""]
  {
    var t4 := r3 + ("/" + (r4 + ("/" + (r5 + ("/" + (r6 + "/"))))));
    var t3 := r2 + ("/" + t4);
    var t2 := r1 + ("/" + t3);
    var t1 := r0 + ("/" + t2);
    SplitLastRanks(r3, r4, r5, r6);
    assert t3 == r2 + ['/'] + t4;
    SplitOnFirst(r2, t4, '/');
    assert t2 == r1 + ['/'] + t3;
    SplitOnFirst(r1, t3, '/');
    assert t1 == r0 + ['/'] + t2;
    SplitOnFirst(r0, t2, '/');
    assert "/" + t1 == "" + ['/'] + t1;
    SplitOnFirst("", t1, '/');
  }

  /** The seven ranks of the start field, top row first. */
  const StartRanks: seq<string> := [AttackerRank, AttackerRank, DefenderRank, KingRank, DefenderRank, AttackerRank, AttackerRank]

  /** Cutting the start field at its slashes gives an empty head, the seven ranks and an empty tail. */
  lemma RuleStartRanks(start: string)
    requires start == RuleStart
    ensures SplitOn(start, '/') == [""] + StartRanks + [""]
  {
    SplitSevenRanks(AttackerRank, AttackerRank, DefenderRank, KingRank, DefenderRank, AttackerRank, AttackerRank);
  }

  /** A rank "3c3": three empty squares, the piece, three empty squares. */
  lemma ExpandNarrowRank(c: char)
    requires c == 't' || c == 'T'
    ensures ExpandRank(['3', c, '3']) == ['.', '.', '.', c, '.', '.', '.']
  {
    assert ExpandRank(['3']) == ['.', '.', '.'] by {
      assert ['3'][1..] == [];
    }
    assert ExpandRank([c, '3']) == [c, '.', '.', '.'] by {
      assert [c, '3'][1..] == ['3'];
    }
    assert ['3', c, '3'][1..] == [c, '3'];
  }

  /** A rank of letters only expands to itself. */
  lemma {:induction false} ExpandLetters(rank: string)
    requires forall i :: 0 <= i < |rank| ==> !IsDigit(rank[i])
    ensures ExpandRank(rank) == rank
  {
    if rank != [] {
      ExpandLetters(rank[1..]);
      assert [rank[0]] + rank[1..] == rank;
    }
  }

  /** The expanded ranks of the start field: one piece in the middle column, or the king's full rank. */
  lemma ExpandedStartRanks()
    ensures ExpandRank(AttackerRank) == "...t..."
    ensures ExpandRank(DefenderRank) == "...T..."
    ensures ExpandRank(KingRank) == KingRank
  {
    ExpandNarrowRank('t');
    ExpandNarrowRank('T');
    ExpandLetters(KingRank);
  }

  /** The thirteen starting placements, square by square: a cross of defenders round the king, attackers beyond. */
  predicate InitialAt(x: Placement)
  {
    if x.layer == KingLayer then x.row == 3 && x.col == 3
    else if x.layer == DefLayer then (x.row == 3 && (x.col == 2 || x.col == 4)) || (x.col == 3 && (x.row == 2 || x.row == 4))
    else if x.layer == AtkLayer then
      (x.row == 3 && (x.col <= 1 || x.col >= 5)) || (x.col == 3 && (x.row <= 1 || x.row >= 5))
    else false
  }

  lemma InitialPiecesAt(x: Placement)
    requires OnBoard(x)
    ensures x in InitialPieces <==> InitialAt(x)
  {
  }

  /** The letter's layer at each square of the expanded start field: king, defender cross, attacker arms. */
  function StartLayer(row: nat, col: nat): Option<nat>
  {
    if row == 3 && col == 3 then Some(KingLayer)
    else if (row == 3 && (col == 2 || col == 4)) || (col == 3 && (row == 2 || row == 4)) then Some(DefLayer)
    else if row == 3 || col == 3 then Some(AtkLayer)
    else None
  }

  /** Reading the expanded rank of the start field at a square gives StartLayer. */
  lemma StartSquare(row: nat, col: nat)
    requires row < Height && col < Width
    ensures col < |ExpandRank(StartRanks[row])|
    ensures LetterLayer(ExpandRank(StartRanks[row])[col]) == StartLayer(row, col)
  {
    ExpandedStartRanks();
  }

  /** The default constructor sets up exactly the start position of the variant's rule string. */
  lemma InitialMatchesRuleString(start: string, x: Placement)
    requires start == RuleStart && OnBoard(x)
    ensures StartHas(start, x) <==> x in InitialPieces
  {
    RuleStartRanks(start);
    StartSquare(x.row, x.col);
    InitialPiecesAt(x);
    var ranks := SplitOn(start, '/');
    assert ranks[x.row + 1] == StartRanks[x.row];
  }

  class BrandubhGS {
    /** Layers for the king, the other defenders and the attackers; 1 marks a piece. */
    const board: array<int>
    var turn: nat
    var maxTurns: nat
    var player: int
    var currentRepetitionCount: nat
    var repetitionCounts: map<RepetitionKey, nat>
    /** The shared intern pool, or null. */
    var boardIntern: InternPool?

    /**
     * The default constructor: a zeroed board with the thirteen starting pieces, attackers to move;
     * the turn limit is DefaultMaxTurns unless the caller gives one.
     */
    constructor (maxTurns: nat := DefaultMaxTurns)
      ensures fresh(board) && board.Length == BoardCells
      ensures board[..] == StartWrites() == Layout(InitialPieces)
      ensures turn == 0 && this.maxTurns == maxTurns && player == AtkPlayer
      ensures currentRepetitionCount == 1 && repetitionCounts == map[] && boardIntern == null
    {
      board := new int[BoardCells](_ => 0);
      turn := 0;
      this.maxTurns := maxTurns;
      player := 0;
      currentRepetitionCount := 1;
      repetitionCounts := map[];
      boardIntern := null;
      new;
      assert board[..] == seq(BoardCells, _ => 0);
      SetCell(board, CellIndex(KingLayer, 3, 3), 1);

      SetCell(board, CellIndex(DefLayer, 2, 3), 1);
      SetCell(board, CellIndex(DefLayer, 3, 2), 1);
      SetCell(board, CellIndex(DefLayer, 4, 3), 1);
      SetCell(board, CellIndex(DefLayer, 3, 4), 1);

      SetCell(board, CellIndex(AtkLayer, 1, 3), 1);
      SetCell(board, CellIndex(AtkLayer, 0, 3), 1);
      SetCell(board, CellIndex(AtkLayer, 3, 1), 1);
      SetCell(board, CellIndex(AtkLayer, 3, 0), 1);
      SetCell(board, CellIndex(AtkLayer, 5, 3), 1);
      SetCell(board, CellIndex(AtkLayer, 6, 3), 1);
      SetCell(board, CellIndex(AtkLayer, 3, 5), 1);
      SetCell(board, CellIndex(AtkLayer, 3, 6), 1);
      StartWritesLayout();
    }

    /**
     * The snapshot constructor: stores the fields as given, then prunes from the
     * shared pool, if there is one, every entry that nothing else owns.
     */
    constructor Restore(board: BoardTensor, player: int, turn: nat, maxTurns: nat, currentRepetitionCount: nat,
                        repetitionCounts: map<RepetitionKey, nat>, boardIntern: InternPool?, heap: KeyHeap)
      requires boardIntern != null ==> boardIntern.Valid(heap)
      modifies boardIntern
      ensures fresh(this.board) && this.board[..] == board
      ensures this.turn == turn && this.maxTurns == maxTurns && this.player == player
      ensures this.currentRepetitionCount == currentRepetitionCount && this.repetitionCounts == repetitionCounts
      ensures this.boardIntern == boardIntern
      ensures boardIntern != null ==>
        boardIntern.entries == Pruned(old(boardIntern.entries), heap.useCount) && boardIntern.Valid(heap)
    {
      this.board := new int[BoardCells](n requires 0 <= n < BoardCells => board[n]);
      this.turn := turn;
      this.maxTurns := maxTurns;
      this.player := player;
      this.currentRepetitionCount := currentRepetitionCount;
      this.repetitionCounts := repetitionCounts;
      this.boardIntern := boardIntern;
      new;
      if boardIntern != null {
        boardIntern.Prune(heap);
      }
    }
  }

  /** board(n) = v on the flat tensor: cell n becomes v and every other cell keeps its value. */
  method SetCell(board: array<int>, n: int, v: int)
    requires 0 <= n < board.Length
    modifies board
    ensures board[..] == old(board[..])[n := v]
  {
    board[n] := v;
  }

  /** Cell n of the starting tensor is 1 exactly when one of the thirteen writes targets it. */
  lemma LayoutCell(n: int)
    requires 0 <= n < BoardCells
    ensures Layout(InitialPieces)[n] == if n in InitialCells() then 1 else 0
  {
    if exists x :: x in InitialPieces && OnBoard(x) && CellIndex(x.layer, x.row, x.col) == n {
      var x :| x in InitialPieces && OnBoard(x) && CellIndex(x.layer, x.row, x.col) == n;
      assert n in InitialCells();
    }
  }

  function InitialCells(): set<int>
  {
    {CellIndex(KingLayer, 3, 3),
     CellIndex(DefLayer, 2, 3), CellIndex(DefLayer, 3, 2), CellIndex(DefLayer, 4, 3), CellIndex(DefLayer, 3, 4),
     CellIndex(AtkLayer, 1, 3), CellIndex(AtkLayer, 0, 3), CellIndex(AtkLayer, 3, 1), CellIndex(AtkLayer, 3, 0),
     CellIndex(AtkLayer, 5, 3), CellIndex(AtkLayer, 6, 3), CellIndex(AtkLayer, 3, 5), CellIndex(AtkLayer, 3, 6)}
  }

  /** The zeroed tensor after the default constructor's thirteen writes, in their order. */
  function StartWrites(): BoardTensor
  {
    seq(BoardCells, _ => 0)
      [CellIndex(KingLayer, 3, 3) := 1]
      [CellIndex(DefLayer, 2, 3) := 1]
      [CellIndex(DefLayer, 3, 2) := 1]
      [CellIndex(DefLayer, 4, 3) := 1]
      [CellIndex(DefLayer, 3, 4) := 1]
      [CellIndex(AtkLayer, 1, 3) := 1]
      [CellIndex(AtkLayer, 0, 3) := 1]
      [CellIndex(AtkLayer, 3, 1) := 1]
      [CellIndex(AtkLayer, 3, 0) := 1]
      [CellIndex(AtkLayer, 5, 3) := 1]
      [CellIndex(AtkLayer, 6, 3) := 1]
      [CellIndex(AtkLayer, 3, 5) := 1]
      [CellIndex(AtkLayer, 3, 6) := 1]
  }

  /** The thirteen writes lay out exactly the starting placements. */
  lemma StartWritesLayout()
    ensures StartWrites() == Layout(InitialPieces)
  {
    forall n | 0 <= n < BoardCells
      ensures StartWrites()[n] == Layout(InitialPieces)[n]
    {
      LayoutCell(n);
      StartWritesCell(n);
    }
  }

  lemma StartWritesCell(n: int)
    requires 0 <= n < BoardCells
    ensures StartWrites()[n] == if n in InitialCells() then 1 else 0
  {
  }
}
