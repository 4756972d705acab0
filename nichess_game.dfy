/**
 * The part of the nichess library that the wrapper relies on. The library's
 * source is not part of this model: its game object is a value of type Game,
 * and its precomputed tables and its make/undo routines are the function
 * fields of an Engine record, so every property proved about the wrapper holds
 * for whatever tables and routines the library provides.
 */
module NichessGame {
  import opened Optional
  import opened NichessConstants
  import opened NichessCodec

  datatype PieceType =
    | P1King | P1Mage | P1Pawn | P1Warrior | P1Assassin
    | P2King | P2Mage | P2Pawn | P2Warrior | P2Assassin
    | NoPiece

  datatype Player = Player1 | Player2

  /** PLAYER_1 is 0 and PLAYER_2 is 1. */
  function PlayerIndex(p: Player): nat
  {
    if p == Player1 then 0 else 1
  }

  /** The library's `~` on players. */
  function Other(p: Player): Player
  {
    if p == Player1 then Player2 else Player1
  }

  function Owner(t: PieceType): Option<Player>
  {
    match t
    case P1King | P1Mage | P1Pawn | P1Warrior | P1Assassin => Some(Player1)
    case P2King | P2Mage | P2Pawn | P2Warrior | P2Assassin => Some(Player2)
    case NoPiece => None
  }

  /** An empty square holds a piece of type NoPiece. */
  datatype Piece = Piece(pieceType: PieceType, healthPoints: int, squareIndex: int)

  /** Sentinels of the library for "no move" and "no ability". */
  const MoveSkip: int := -1
  const AbilitySkip: int := -1
  /** Position of the king in each player's roster. */
  const KingPieceIndex: nat := 0

  datatype PlayerMove = PlayerMove(moveSrcIdx: Square, moveDstIdx: Square)
  datatype PlayerAbility = PlayerAbility(abilitySrcIdx: Square, abilityDstIdx: Square)
  datatype PlayerAction = PlayerAction(moveSrcIdx: int, moveDstIdx: int, abilitySrcIdx: int, abilityDstIdx: int)

  /**
   * The game object: 64 board squares, each player's roster of pieces (dead
   * ones included, the king first), the side to move and the move number.
   */
  datatype GameData = GameData(board: seq<Piece>, playerToPieces: seq<seq<Piece>>, currentPlayer: Player, moveNumber: int)

  /** A roster belongs to its player, and its living pieces stand on the board. */
  predicate RosterWellFormed(pieces: seq<Piece>, p: Player)
  {
    && |pieces| > KingPieceIndex
    && (forall k :: 0 <= k < |pieces| ==> Owner(pieces[k].pieceType) == Some(p))
    && (forall k :: 0 <= k < |pieces| && pieces[k].healthPoints > 0 ==> 0 <= pieces[k].squareIndex < NumSquares)
  }

  predicate WellFormed(g: GameData)
  {
    && |g.board| == NumSquares
    && |g.playerToPieces| == NumPlayers
    && RosterWellFormed(g.playerToPieces[0], Player1)
    && RosterWellFormed(g.playerToPieces[1], Player2)
  }

  type Game = g: GameData | WellFormed(g)
    witness GameData(seq(64, _ => Piece(NoPiece, 0, 0)),
                     [[Piece(P1King, 0, 0)], [Piece(P2King, 0, 0)]], Player1, 0)

  function Roster(g: Game, p: Player): (r: seq<Piece>)
    ensures RosterWellFormed(r, p)
  {
    g.playerToPieces[PlayerIndex(p)]
  }

  /** What the library's makeAction records so that undoAction can revert it. */
  datatype UndoInfo = UndoInfo(record: seq<int>)

  /**
   * The library: its tables of moves and abilities on an empty board, per piece
   * type and square, its make/undo routines, and its winner test.
   */
  datatype Engine = Engine(
    legalMoves: (PieceType, Square) -> seq<PlayerMove>,
    legalAbilities: (PieceType, Square) -> seq<PlayerAbility>,
    makeMove: (Game, int, int) -> Game,
    undoMove: (Game, int, int) -> Game,
    makeAction: (Game, PlayerAction) -> (Game, UndoInfo),
    undoAction: (Game, UndoInfo) -> Game,
    winner: Game -> Option<Player>)

  /** The library's undo routines exactly revert its make routines. */
  ghost predicate Inverts(e: Engine)
  {
    && (forall g, src, dst :: e.undoMove(e.makeMove(g, src, dst), src, dst) == g)
    && (forall g, a :: e.undoAction(e.makeAction(g, a).0, e.makeAction(g, a).1) == g)
  }
}
