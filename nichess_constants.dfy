/** Index-space and tensor-shape constants of the Nichess engine. */
module NichessConstants {

  const Width: nat := 8
  const Height: nat := 8
  const NumSquares: nat := Width * Height
  /** Slots reserved per source square: the 5x5 neighbourhood without its centre, plus four (±3, ±3) leaps. */
  const NumMaxPossibleMovesForPiece: nat := 28
  /** One index per (source square, slot), plus one for MOVE_SKIP. */
  const NumMoves: nat := Width * Height * NumMaxPossibleMovesForPiece + 1
  /** The last index is reserved for MOVE_SKIP. */
  const MoveSkipIdx: nat := Width * Height * NumMaxPossibleMovesForPiece
  const NumPlayers: nat := 2
  /** The board has a reflection, but only the identity is used. */
  const NumSymmetries: nat := 1
  const BoardShape: seq<nat> := [2, Height, Width]
  /** 10 piece types with two layers each (presence, health), then two turn layers. */
  const CanonicalShape: seq<nat> := [10 * 2 + 2, Height, Width]

  /** The action index space: the skip index is the last one, and the tensors have the stated shapes. */
  lemma ActionSpaceLayout()
    ensures MoveSkipIdx == NumMoves - 1
    ensures NumMoves == 64 * 28 + 1
    ensures NumSquares == 64
    ensures CanonicalShape[0] == 22 && CanonicalShape[1] == Height && CanonicalShape[2] == Width
    ensures BoardShape == [2, 8, 8]
  {
  }

  /** A non-skip action index read as (source square, slot). */
  function SplitMoveIndex(i: nat): (r: (nat, nat))
    requires i < MoveSkipIdx
    ensures r.0 < NumSquares && r.1 < NumMaxPossibleMovesForPiece
    ensures i == r.0 * NumMaxPossibleMovesForPiece + r.1
  {
    (i / NumMaxPossibleMovesForPiece, i % NumMaxPossibleMovesForPiece)
  }

  /** Every (source square, slot) pair is a distinct non-skip index, and splitting it gives the pair back. */
  lemma SlotIndexSplits(src: nat, n: nat)
    requires src < NumSquares && n < NumMaxPossibleMovesForPiece
    ensures src * NumMaxPossibleMovesForPiece + n < MoveSkipIdx
    ensures (src * NumMaxPossibleMovesForPiece + n) / NumMaxPossibleMovesForPiece == src
    ensures (src * NumMaxPossibleMovesForPiece + n) % NumMaxPossibleMovesForPiece == n
    ensures SplitMoveIndex(src * NumMaxPossibleMovesForPiece + n) == (src, n)
  {
  }
}
