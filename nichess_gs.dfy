/**
 * The Nichess game state the self-play search sees: copying, equality, the
 * fields fed to the hash, the score vector, the canonical tensor handed to the
 * network, and the (identity only) symmetries.
 */
module NichessState {
  import opened Optional
  import opened NichessConstants
  import opened NichessCodec
  import opened NichessGame
  import opened NichessRules
  import opened NichessWrapper

  // ============================================================ piece tables

  /** The presence channel of each piece type; 1000 for anything else. */
  function PieceTypeToCanonicalIndex(pt: PieceType): int
  {
    match pt
    case P1King => 0
    case P1Mage => 1
    case P1Pawn => 2
    case P1Warrior => 3
    case P1Assassin => 4
    case P2King => 5
    case P2Mage => 6
    case P2Pawn => 7
    case P2Warrior => 8
    case P2Assassin => 9
    case NoPiece => 1000
  }

  /**
   * The ten piece types take the ten presence channels one to one, player 1's
   * types the first five and player 2's the last five.
   */
  lemma CanonicalIndexBijective(t: PieceType, u: PieceType)
    ensures t != NoPiece ==> 0 <= PieceTypeToCanonicalIndex(t) < 10
    ensures t != NoPiece ==> (PieceTypeToCanonicalIndex(t) < 5 <==> Owner(t) == Some(Player1))
    ensures t == NoPiece ==> PieceTypeToCanonicalIndex(t) == 1000
    ensures PieceTypeToCanonicalIndex(t) == PieceTypeToCanonicalIndex(u) ==> t == u
  {
  }

  /** Every presence channel belongs to some piece type. */
  lemma CanonicalIndexOnto(c: int)
    requires 0 <= c < 10
    ensures exists t :: t != NoPiece && PieceTypeToCanonicalIndex(t) == c
  {
    var all := [P1King, P1Mage, P1Pawn, P1Warrior, P1Assassin, P2King, P2Mage, P2Pawn, P2Warrior, P2Assassin];
    assert PieceTypeToCanonicalIndex(all[c]) == c;
  }

  /** The divisor of each type's health channel. */
  function PieceTypeToMaxHealthPoints(pt: PieceType): int
  {
    match pt
    case P1King => 200
    case P1Mage => 230
    case P1Pawn => 300
    case P1Warrior => 500
    case P1Assassin => 110
    case P2King => 200
    case P2Mage => 230
    case P2Pawn => 300
    case P2Warrior => 500
    case P2Assassin => 110
    case NoPiece => 0
  }

  /** The type of the same kind belonging to the other player. */
  function Counterpart(t: PieceType): PieceType
  {
    match t
    case P1King => P2King
    case P1Mage => P2Mage
    case P1Pawn => P2Pawn
    case P1Warrior => P2Warrior
    case P1Assassin => P2Assassin
    case P2King => P1King
    case P2Mage => P1Mage
    case P2Pawn => P1Pawn
    case P2Warrior => P1Warrior
    case P2Assassin => P1Assassin
    case NoPiece => NoPiece
  }

  /**
   * Both players' pieces of a kind share their maximum health, which is positive
   * (so the health channel's division is defined); an empty square's is 0.
   */
  lemma MaxHealthPointsSymmetric(t: PieceType)
    ensures PieceTypeToMaxHealthPoints(Counterpart(t)) == PieceTypeToMaxHealthPoints(t)
    ensures t != NoPiece <==> PieceTypeToMaxHealthPoints(t) > 0
    ensures Counterpart(t) != NoPiece ==> Owner(Counterpart(t)) != Owner(t)
  {
  }

  // ============================================================ equality and hash

  /** The squares from i on hold equal pieces, checked square by square. */
  predicate SquaresEqualFrom(a: Game, b: Game, i: nat)
    requires i <= NumSquares
    decreases NumSquares - i
  {
    i == NumSquares || (a.board[i] == b.board[i] && SquaresEqualFrom(a, b, i + 1))
  }

  lemma {:induction false} SquaresEqualFromMeans(a: Game, b: Game, i: nat)
    requires i <= NumSquares
    ensures SquaresEqualFrom(a, b, i) <==> a.board[i..] == b.board[i..]
    decreases NumSquares - i
  {
    if i < NumSquares {
      SquaresEqualFromMeans(a, b, i + 1);
      assert a.board[i..] == [a.board[i]] + a.board[i + 1..];
      assert b.board[i..] == [b.board[i]] + b.board[i + 1..];
    }
  }

  /** What operator== compares: the 64 squares, then the side to move and the move number. */
  predicate StateEquals(a: Game, b: Game)
  {
    SquaresEqualFrom(a, b, 0) && b.currentPlayer == a.currentPlayer && b.moveNumber == a.moveNumber
  }

  /** Equality holds exactly when the boards, the side to move and the move number agree; the rosters are not compared. */
  lemma StateEqualsMeans(a: Game, b: Game)
    ensures StateEquals(a, b) <==> a.board == b.board && a.currentPlayer == b.currentPlayer && a.moveNumber == b.moveNumber
  {
    SquaresEqualFromMeans(a, b, 0);
    assert a.board[0..] == a.board && b.board[0..] == b.board;
  }

  /** One value combined into the hash. */
  datatype HashItem = SquareItem(pieceType: PieceType, healthPoints: int, squareIndex: int) | PlayerItem(player: Player)

  /** The values hash combines, in order: type, health and square of each of the 64 squares, then the side to move. */
  function HashFeed(g: Game): (feed: seq<HashItem>)
    ensures |feed| == NumSquares + 1
  {
    seq(NumSquares, i requires 0 <= i < NumSquares => SquareItem(g.board[i].pieceType, g.board[i].healthPoints, g.board[i].squareIndex))
      + [PlayerItem(g.currentPlayer)]
  }

  /** Equal states feed the hash equal values, so they hash alike. */
  lemma EqualStatesHashAlike(a: Game, b: Game)
    requires StateEquals(a, b)
    ensures HashFeed(a) == HashFeed(b)
  {
    StateEqualsMeans(a, b);
  }

  /** The hash sees the board and the side to move in full, and nothing of the move number. */
  lemma HashFeedDetermines(a: Game, b: Game)
    ensures HashFeed(a) == HashFeed(b) <==> a.board == b.board && a.currentPlayer == b.currentPlayer
  {
    if HashFeed(a) == HashFeed(b) {
      forall i | 0 <= i < NumSquares
        ensures a.board[i] == b.board[i]
      {
        assert HashFeed(a)[i] == HashFeed(b)[i];
      }
      assert HashFeed(a)[NumSquares] == HashFeed(b)[NumSquares];
    }
  }

  // ============================================================ scores

  /** The score vector: a one-hot win for player 1, for player 2, or a draw at move 200; absent while the game goes on. */
  function ScoresOf(winner: Option<Player>, moveNumber: int): (r: Option<seq<real>>)
    ensures r.None? <==> winner.None? && moveNumber != 200
    ensures r.Some? ==> |r.value| == 3
    ensures r.Some? ==> forall k :: 0 <= k < 3 ==> r.value[k] == 0.0 || r.value[k] == 1.0
    ensures r.Some? ==> (r.value[0] + r.value[1] + r.value[2] == 1.0)
    ensures r.Some? ==> (r.value[0] == 1.0 <==> winner == Some(Player1))
    ensures r.Some? ==> (r.value[1] == 1.0 <==> winner == Some(Player2))
    ensures r.Some? ==> (r.value[2] == 1.0 <==> winner.None?)
  {
    var zero := [0.0, 0.0, 0.0];
    match winner
    case Some(Player1) => Some(zero[0 := 1.0])
    case Some(Player2) => Some(zero[1 := 1.0])
    case None => if moveNumber == 200 then Some(zero[2 := 1.0]) else None
  }

  // ============================================================ canonical tensor

  /** The turn channel as written: 19 plus the side to move. */
  function TurnChannel(p: Player): int
  {
    19 + PlayerIndex(p)
  }

  /** The square at row h, column w. */
  function SquareAt(g: Game, h: int, w: int): Piece
    requires 0 <= h < Height && 0 <= w < Width
  {
    g.board[CoordinatesToBoardIndex(w, h)]
  }

  function HealthRatio(p: Piece): real
    requires p.pieceType != NoPiece
  {
    (p.healthPoints as real) / (PieceTypeToMaxHealthPoints(p.pieceType) as real)
  }

  /**
   * Cell (c, h, w) of the tensor canonicalized returns. Each square gets the turn
   * flag first, then its piece's presence flag and health ratio; a later write to
   * the same channel wins.
   */
  function CanonicalCell(g: Game, c: int, h: int, w: int): (r: real)
    requires 0 <= h < Height && 0 <= w < Width
    ensures SquareAt(g, h, w).pieceType == NoPiece ==> (r == 1.0 <==> c == TurnChannel(g.currentPlayer))
    ensures SquareAt(g, h, w).pieceType == NoPiece ==> (r == 0.0 <==> c != TurnChannel(g.currentPlayer))
  {
    var p := SquareAt(g, h, w);
    if p.pieceType != NoPiece && c == PieceTypeToCanonicalIndex(p.pieceType) + 10 then HealthRatio(p)
    else if p.pieceType != NoPiece && c == PieceTypeToCanonicalIndex(p.pieceType) then 1.0
    else if c == TurnChannel(g.currentPlayer) then 1.0
    else 0.0
  }

  /**
   * The presence channels as written: an occupied square has exactly its piece's
   * channel among 0..9 set to 1, an empty square none.
   */
  lemma PresenceChannels(g: Game, c: int, h: int, w: int)
    requires 0 <= c < 10 && 0 <= h < Height && 0 <= w < Width
    ensures CanonicalCell(g, c, h, w) == 1.0 <==>
      SquareAt(g, h, w).pieceType != NoPiece && PieceTypeToCanonicalIndex(SquareAt(g, h, w).pieceType) == c
    ensures CanonicalCell(g, c, h, w) == 0.0 <==> !(CanonicalCell(g, c, h, w) == 1.0)
  {
  }

  /**
   * As written, with player 1 to move the turn flag lands in channel 19, which is
   * player 2's assassin health channel: an empty square shows a health of 1 there,
   * and a square holding that assassin shows its health instead of the flag.
   * Channel 21 is never written.
   */
  lemma TurnChannelCollides(g: Game, h: int, w: int)
    requires 0 <= h < Height && 0 <= w < Width
    ensures PieceTypeToCanonicalIndex(P2Assassin) + 10 == TurnChannel(Player1)
    ensures g.currentPlayer == Player1 && SquareAt(g, h, w).pieceType == NoPiece ==> CanonicalCell(g, 19, h, w) == 1.0
    ensures g.currentPlayer == Player1 && SquareAt(g, h, w).pieceType == P2Assassin && SquareAt(g, h, w).healthPoints == 55
      ==> CanonicalCell(g, 19, h, w) == 0.5
    ensures CanonicalCell(g, 21, h, w) == 0.0
  {
  }

  /** The game with player 1 to move and an empty board (each roster holds only a dead king). */
  function EmptyGame(): Game
  {
    GameData(seq(64, _ => Piece(NoPiece, 0, 0)), [[Piece(P1King, 0, 0)], [Piece(P2King, 0, 0)]], Player1, 0)
  }

  /**
   * A concrete input for the collision: on an empty board with player 1 to move,
   * player 2's assassin health channel reads 1 on a square with no piece at all.
   */
  lemma AsWrittenHealthChannelDirty()
    ensures SquareAt(EmptyGame(), 0, 0).pieceType == NoPiece
    ensures CanonicalCell(EmptyGame(), PieceTypeToCanonicalIndex(P2Assassin) + 10, 0, 0) == 1.0
  {
  }

  /** The evidently intended layout: the two turn channels are 20 and 21, after the twenty piece channels. */
  function IntendedTurnChannel(p: Player): int
  {
    20 + PlayerIndex(p)
  }

  function IntendedCanonicalCell(g: Game, c: int, h: int, w: int): real
    requires 0 <= h < Height && 0 <= w < Width
  {
    var p := SquareAt(g, h, w);
    if p.pieceType != NoPiece && c == PieceTypeToCanonicalIndex(p.pieceType) + 10 then HealthRatio(p)
    else if p.pieceType != NoPiece && c == PieceTypeToCanonicalIndex(p.pieceType) then 1.0
    else if c == IntendedTurnChannel(g.currentPlayer) then 1.0
    else 0.0
  }

  /**
   * With the intended turn channels a health channel is nonzero only under a
   * piece of its type, the side to move's turn channel is 1 on every square and
   * the other's 0, and the piece channels are as written.
   */
  lemma IntendedChannelsSeparate(g: Game)
    ensures forall d, h, w :: 10 <= d < 20 && 0 <= h < Height && 0 <= w < Width && IntendedCanonicalCell(g, d, h, w) != 0.0 ==>
      PieceTypeToCanonicalIndex(SquareAt(g, h, w).pieceType) == d - 10
    ensures forall h, w :: 0 <= h < Height && 0 <= w < Width ==>
      IntendedCanonicalCell(g, IntendedTurnChannel(g.currentPlayer), h, w) == 1.0
      && IntendedCanonicalCell(g, IntendedTurnChannel(Other(g.currentPlayer)), h, w) == 0.0
    ensures forall c, h, w :: 0 <= c < 20 && 0 <= h < Height && 0 <= w < Width ==>
      IntendedCanonicalCell(g, c, h, w) == CanonicalCell(g, c, h, w) || (c == 19 && g.currentPlayer == Player1)
  {
    forall d, h, w | 10 <= d < 20 && 0 <= h < Height && 0 <= w < Width && IntendedCanonicalCell(g, d, h, w) != 0.0
      ensures PieceTypeToCanonicalIndex(SquareAt(g, h, w).pieceType) == d - 10
    {
      CanonicalIndexBijective(SquareAt(g, h, w).pieceType, SquareAt(g, h, w).pieceType);
    }
  }

  // ============================================================ symmetries

  /** Only the identity is used: the list holds the base alone. */
  function Symmetries<T>(base: T): (syms: seq<T>)
    ensures |syms| == NumSymmetries
    ensures forall k :: 0 <= k < |syms| ==> syms[k] == base
  {
    [base]
  }

  // ============================================================ the state object

  class NichessGS {
    var gameWrapper: GameWrapper

    ghost predicate Valid()
      reads this, gameWrapper
    {
      gameWrapper.Valid()
    }

    constructor (gameWrapper: GameWrapper)
      requires gameWrapper.Valid()
      ensures Valid() && this.gameWrapper == gameWrapper
    {
      this.gameWrapper := gameWrapper;
    }

    /** copy: a new state around a new wrapper holding its own copy of the game and sharing the agent's tables. */
    method Copy() returns (up: NichessGS)
      requires Valid()
      ensures fresh(up) && fresh(up.gameWrapper) && up.Valid()
      ensures up.gameWrapper.game == gameWrapper.game
      ensures up.gameWrapper.agentCache == gameWrapper.agentCache && up.gameWrapper.engine == gameWrapper.engine
    {
      var w := new GameWrapper.Copy(gameWrapper);
      up := new NichessGS(w);
    }

    /** operator==: false against anything that is not a Nichess state (null here), else StateEquals. */
    function Equals(other: NichessGS?): (r: bool)
      reads this, gameWrapper, other, if other == null then null else other.gameWrapper
      ensures other == null ==> !r
      ensures other != null ==>
        (r <==> var a, b := gameWrapper.game, other.gameWrapper.game;
          a.board == b.board && a.currentPlayer == b.currentPlayer && a.moveNumber == b.moveNumber)
    {
      if other == null then false
      else
        StateEqualsMeans(gameWrapper.game, other.gameWrapper.game);
        StateEquals(gameWrapper.game, other.gameWrapper.game)
    }

    /** valid_moves: the wrapper's mask. */
    method ValidMoves() returns (valids: seq<int>)
      requires Valid()
      ensures valids == ValidsMask(gameWrapper.engine, gameWrapper.game)
    {
      valids := gameWrapper.ComputeValids();
    }

    /** play_move: the wrapper's makeAction. */
    method PlayMove(move: nat)
      requires Valid() && Inverts(gameWrapper.engine) && move < NumMoves
      modifies gameWrapper
      ensures Valid()
      ensures gameWrapper.game == gameWrapper.engine.makeAction(old(gameWrapper.game), ResolvedAction(gameWrapper.engine, old(gameWrapper.game), move)).0
    {
      gameWrapper.MakeAction(move);
    }

    /** move_to_player_action: the wrapper's action string, leaving the game as it was. */
    method MoveToPlayerAction(move: nat) returns (s: string)
      requires Valid() && Inverts(gameWrapper.engine) && move < NumMoves
      modifies gameWrapper
      ensures Valid() && gameWrapper.game == old(gameWrapper.game)
      ensures var a := ResolvedAction(gameWrapper.engine, gameWrapper.game, move);
        s == Text.FormatFields(a.moveSrcIdx, a.moveDstIdx, a.abilitySrcIdx, a.abilityDstIdx)
    {
      s := gameWrapper.MoveToPlayerAction(move);
    }

    /** scores: a zeroed vector of three with the winner's entry, or the draw entry at move 200, set to 1. */
    method Scores() returns (r: Option<seq<real>>)
      ensures r == ScoresOf(gameWrapper.engine.winner(gameWrapper.game), gameWrapper.game.moveNumber)
    {
      var winner := gameWrapper.engine.winner(gameWrapper.game);
      var scores := [0.0, 0.0, 0.0];
      if winner.Some? {
        if winner.value == Player1 {
          scores := scores[0 := 1.0];
        } else {
          scores := scores[1 := 1.0];
        }
      } else if gameWrapper.game.moveNumber == 200 {
        scores := scores[2 := 1.0];
      } else {
        return None;
      }
      r := Some(scores);
    }

    /** canonicalized: a zeroed 22x8x8 tensor filled square by square, row by row. */
    method Canonicalized() returns (out: array3<real>)
      ensures fresh(out)
      ensures out.Length0 == CanonicalShape[0] && out.Length1 == Height && out.Length2 == Width
      ensures forall c, h, w :: 0 <= c < out.Length0 && 0 <= h < Height && 0 <= w < Width ==>
        out[c, h, w] == CanonicalCell(gameWrapper.game, c, h, w)
    {
      out := new real[CanonicalShape[0], Height, Width]((c, h, w) => 0.0);
      var g := gameWrapper.game;
      var currentPlayerIdx := 19 + PlayerIndex(g.currentPlayer);
      for h := 0 to Height
        invariant forall c, h', w' :: 0 <= c < out.Length0 && 0 <= h' < Height && 0 <= w' < Width ==>
          out[c, h', w'] == if h' < h then CanonicalCell(g, c, h', w') else 0.0
      {
        for w := 0 to Width
          invariant forall c, h', w' :: 0 <= c < out.Length0 && 0 <= h' < Height && 0 <= w' < Width ==>
            out[c, h', w'] == if h' < h || (h' == h && w' < w) then CanonicalCell(g, c, h', w') else 0.0
        {
          WriteSquare(out, g, currentPlayerIdx, h, w);
        }
      }
    }
  }

  /** The body of canonicalized's loop for one square: turn flag, then presence, then health. */
  method WriteSquare(out: array3<real>, g: Game, currentPlayerIdx: int, h: int, w: int)
    requires out.Length0 == CanonicalShape[0] && out.Length1 == Height && out.Length2 == Width
    requires currentPlayerIdx == TurnChannel(g.currentPlayer)
    requires 0 <= h < Height && 0 <= w < Width
    requires forall c :: 0 <= c < out.Length0 ==> out[c, h, w] == 0.0
    modifies out
    ensures forall c :: 0 <= c < out.Length0 ==> out[c, h, w] == CanonicalCell(g, c, h, w)
    ensures forall c, h', w' :: 0 <= c < out.Length0 && 0 <= h' < Height && 0 <= w' < Width && (h', w') != (h, w) ==>
      out[c, h', w'] == old(out[c, h', w'])
  {
    out[currentPlayerIdx, h, w] := 1.0;
    var currentBoardIdx := CoordinatesToBoardIndex(w, h);
    var currentPiece := g.board[currentBoardIdx];
    if currentPiece.pieceType == NoPiece {
      return;
    }
    var currentCanonicalIdx := PieceTypeToCanonicalIndex(currentPiece.pieceType);
    out[currentCanonicalIdx, h, w] := 1.0;
    var maxHP := PieceTypeToMaxHealthPoints(currentPiece.pieceType) as real;
    out[currentCanonicalIdx + 10, h, w] := (currentPiece.healthPoints as real) / maxHP;
  }
}
