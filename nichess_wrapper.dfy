/**
 * The game wrapper the search drives: it owns a game, shares the agent's index
 * tables, computes the legal move mask, and completes a chosen move with the
 * ability that a one-ply greedy search on the position value prefers.
 */
module NichessWrapper {
  import opened Optional
  import opened NichessConstants
  import opened NichessCodec
  import opened NichessGame
  import opened NichessRules
  import opened Text

  /** positionValue: the two roster loops, then the sign of the asking player. */
  method ComputePositionValue(game: Game, player: Player) returns (v: int)
    ensures v == PositionValue(game, player)
  {
    var retval := 0;
    var p1Pieces := Roster(game, Player1);
    for i := 0 to |p1Pieces|
      invariant retval == Material(p1Pieces[..i])
    {
      var p := p1Pieces[i];
      assert p1Pieces[..i + 1][..i] == p1Pieces[..i];
      if p.healthPoints <= 0 {
        retval := retval - PieceTypeToValueMultiplier(p.pieceType) * 100;
        continue;
      }
      retval := retval + PieceTypeToValueMultiplier(p.pieceType) * p.healthPoints;
    }
    assert p1Pieces[..|p1Pieces|] == p1Pieces;
    var p2Pieces := Roster(game, Player2);
    for j := 0 to |p2Pieces|
      invariant retval == Material(p1Pieces) - Material(p2Pieces[..j])
    {
      var p := p2Pieces[j];
      assert p2Pieces[..j + 1][..j] == p2Pieces[..j];
      if p.healthPoints <= 0 {
        retval := retval + PieceTypeToValueMultiplier(p.pieceType) * 100;
        continue;
      }
      retval := retval - PieceTypeToValueMultiplier(p.pieceType) * p.healthPoints;
    }
    assert p2Pieces[..|p2Pieces|] == p2Pieces;
    var m := 1;
    if player == Player2 {
      m := -1;
    }
    v := m * retval;
  }

  /** The (source, destination) of a move index, read from the agent's table. */
  method DecodeMove(agentCache: AgentCache, move: nat) returns (src: int, dst: int)
    requires agentCache.Valid() && move < NumMoves
    ensures (src, dst) == DecodeMoveIndex(move)
  {
    if move == MoveSkipIdx {
      src, dst := MoveSkip, MoveSkip;
    } else {
      var srcAndDst := agentCache.moveIndexToSrcSquareAndDstSquare[move];
      src := srcAndDst.0;
      dst := srcAndDst.1;
    }
  }

  class GameWrapper {
    /** The wrapped game, owned by this wrapper. */
    var game: Game
    /** The agent's index tables, shared by every wrapper. */
    const agentCache: AgentCache
    /** The library's tables and its make/undo routines. */
    const engine: Engine

    ghost predicate Valid()
    {
      agentCache.Valid()
    }

    /** A wrapper around a game the library set up, from its cache or an encoded board. */
    constructor (engine: Engine, agentCache: AgentCache, initial: Game)
      requires agentCache.Valid()
      ensures Valid()
      ensures this.engine == engine && this.agentCache == agentCache && game == initial
    {
      this.engine := engine;
      this.agentCache := agentCache;
      game := initial;
    }

    /** The copy constructor: same tables, and a game of its own equal to the other's. */
    constructor Copy(other: GameWrapper)
      requires other.Valid()
      ensures Valid()
      ensures engine == other.engine && agentCache == other.agentCache && game == other.game
    {
      engine := other.engine;
      agentCache := other.agentCache;
      game := other.game;
    }

    /** usefulLegalActionsWithoutMoves: the abilities of the side to move that change the game. */
    method UsefulLegalActionsWithoutMoves() returns (retval: seq<PlayerAction>)
      ensures retval == UsefulActions(engine, game)
    {
      retval := [];
      var pieces := Roster(game, game.currentPlayer);
      if pieces[KingPieceIndex].healthPoints <= 0 {
        return;
      }
      for k := 0 to |pieces|
        invariant retval == RosterActions(engine, game, pieces[..k])
      {
        assert pieces[..k + 1][..k] == pieces[..k];
        var cp2 := pieces[k];
        if cp2.healthPoints <= 0 {
          continue;
        }
        var legalAbilities := engine.legalAbilities(cp2.pieceType, cp2.squareIndex);
        ghost var before := retval;
        for l := 0 to |legalAbilities|
          invariant retval == before + AbilityCandidates(game, cp2, legalAbilities[..l])
        {
          assert legalAbilities[..l + 1][..l] == legalAbilities[..l];
          var destinationSquarePiece := game.board[legalAbilities[l].abilityDstIdx];
          if !KeepsAbility(cp2.pieceType, destinationSquarePiece.pieceType) {
            continue;
          }
          retval := retval + [PlayerAction(MoveSkip, MoveSkip, legalAbilities[l].abilitySrcIdx, legalAbilities[l].abilityDstIdx)];
        }
        assert legalAbilities[..|legalAbilities|] == legalAbilities;
      }
      assert pieces[..|pieces|] == pieces;
    }

    /** legalMovesByPiece: the piece's empty-board moves that are still legal on this board. */
    method LegalMovesByPiece(piece: Piece) returns (retval: seq<PlayerMove>)
      requires 0 <= piece.squareIndex < NumSquares
      ensures retval == LegalMovesOf(engine, game, piece)
    {
      retval := [];
      var legalMovesOnEmptyBoard := engine.legalMoves(piece.pieceType, piece.squareIndex);
      for i := 0 to |legalMovesOnEmptyBoard|
        invariant retval == KeptMoves(game, piece, legalMovesOnEmptyBoard[..i])
      {
        KeptMovesSnoc(game, piece, legalMovesOnEmptyBoard, i);
        var currentMove := legalMovesOnEmptyBoard[i];
        var stillLegal := StillLegal(piece, currentMove);
        if !stillLegal {
          continue;
        }
        retval := retval + [currentMove];
      }
      assert legalMovesOnEmptyBoard[..|legalMovesOnEmptyBoard|] == legalMovesOnEmptyBoard;
    }

    /**
     * The body of legalMovesByPiece's loop: an empty-board move is dropped when
     * its destination is occupied, or when it is a pawn's two-row advance over an
     * occupied square.
     */
    method StillLegal(piece: Piece, currentMove: PlayerMove) returns (stillLegal: bool)
      requires 0 <= piece.squareIndex < NumSquares
      ensures stillLegal == MoveKept(game, piece, currentMove)
    {
      if game.board[currentMove.moveDstIdx].pieceType != NoPiece {
        return false;
      }
      if piece.pieceType == P1Pawn && piece.squareIndex - currentMove.moveDstIdx == -2 * NumColumns {
        if game.board[piece.squareIndex + NumColumns].pieceType != NoPiece {
          return false;
        }
      }
      if piece.pieceType == P2Pawn && piece.squareIndex - currentMove.moveDstIdx == 2 * NumColumns {
        if game.board[piece.squareIndex - NumColumns].pieceType != NoPiece {
          return false;
        }
      }
      return true;
    }

    /** The inner loop of computeValids: set the bit of each move, through the source -> destination -> index table. */
    method SetMoveBits(valids: seq<int>, legalMoves: seq<PlayerMove>) returns (r: seq<int>, foundLegalMove: bool)
      requires Valid() && |valids| == NumMoves
      ensures |r| == NumMoves && r[MoveSkipIdx] == valids[MoveSkipIdx]
      ensures forall i :: 0 <= i < MoveSkipIdx ==> r[i] == if i in MoveIndices(legalMoves) then 1 else valids[i]
      ensures foundLegalMove <==> MoveIndices(legalMoves) != {}
    {
      r := valids;
      foundLegalMove := false;
      for j := 0 to |legalMoves|
        invariant |r| == NumMoves && r[MoveSkipIdx] == valids[MoveSkipIdx]
        invariant forall i :: 0 <= i < MoveSkipIdx ==> r[i] == if i in MoveIndices(legalMoves[..j]) then 1 else valids[i]
        invariant foundLegalMove <==> j > 0
      {
        var move := legalMoves[j];
        var currentIndex := agentCache.srcSquareToDstSquareToMoveIndex[move.moveSrcIdx][move.moveDstIdx];
        MoveIndicesSnoc(legalMoves, j);
        r := r[currentIndex := 1];
        foundLegalMove := true;
      }
      assert legalMoves[..|legalMoves|] == legalMoves;
      if legalMoves != [] {
        assert EncodedIndex(legalMoves[0].moveSrcIdx, legalMoves[0].moveDstIdx) in MoveIndices(legalMoves);
      }
    }

    /** computeValids: one bit per legal move of a living piece; MOVE_SKIP only when there is none. */
    method ComputeValids() returns (valids: seq<int>)
      requires Valid()
      ensures valids == ValidsMask(engine, game)
    {
      valids := seq(NumMoves, _ => 0);
      var foundLegalMove := false;
      var pieces := Roster(game, game.currentPlayer);
      for k := 0 to |pieces|
        invariant |valids| == NumMoves && valids[MoveSkipIdx] == 0
        invariant forall i :: 0 <= i < MoveSkipIdx ==>
          valids[i] == if i in LegalIndices(engine, game, pieces[..k]) then 1 else 0
        invariant foundLegalMove <==> LegalIndices(engine, game, pieces[..k]) != {}
      {
        LegalIndicesSnoc(engine, game, pieces, k);
        var currentPiece := pieces[k];
        if currentPiece.healthPoints <= 0 {
          continue;
        }
        var legalMoves := LegalMovesByPiece(currentPiece);
        var found;
        valids, found := SetMoveBits(valids, legalMoves);
        foundLegalMove := foundLegalMove || found;
      }
      assert pieces[..|pieces|] == pieces;
      ghost var legal := LegalIndices(engine, game, pieces);
      if !foundLegalMove {
        valids := valids[MoveSkipIdx := 1];
      }
      MaskByIndex(engine, game, valids);
    }

    /**
     * The search loop: try every action's ability and undo it, keeping the first
     * of greatest value to the side that used it. The game ends as it started.
     */
    method BestAbility(actions: seq<PlayerAction>) returns (abilitySrcIdx: int, abilityDstIdx: int)
      requires Inverts(engine)
      modifies this
      ensures game == old(game)
      ensures (abilitySrcIdx, abilityDstIdx) == ChosenAbility(engine, old(game), actions)
    {
      abilitySrcIdx, abilityDstIdx := AbilitySkip, AbilitySkip;
      // None stands for -FLT_MAX, below every position value.
      var bestValue: Option<int> := None;
      for l := 0 to |actions|
        invariant game == old(game)
        invariant (abilitySrcIdx, abilityDstIdx) == ChosenAbility(engine, game, actions[..l])
        invariant bestValue == BestValue(engine, game, actions[..l])
      {
        var pa := actions[l];
        GreedyStep(engine, game, actions, l);
        var currentValue := TryAbility(pa);
        if bestValue.None? || currentValue > bestValue.value {
          bestValue := Some(currentValue);
          abilitySrcIdx := pa.abilitySrcIdx;
          abilityDstIdx := pa.abilityDstIdx;
        }
      }
      assert actions[..|actions|] == actions;
    }

    /**
     * One probe of the search: make the action's ability alone, value the
     * position for the side that used it, and undo it.
     */
    method TryAbility(pa: PlayerAction) returns (currentValue: int)
      requires Inverts(engine)
      modifies this
      ensures game == old(game)
      ensures currentValue == SpeculativeValue(engine, game, pa)
    {
      var (next, undoInfo) := engine.makeAction(game, PlayerAction(MoveSkip, MoveSkip, pa.abilitySrcIdx, pa.abilityDstIdx));
      game := next;
      currentValue := ComputePositionValue(game, Other(game.currentPlayer));
      game := engine.undoAction(game, undoInfo);
    }

    /**
     * The one-ply greedy search shared by makeAction and moveToPlayerAction: play
     * the decoded move, choose the ability, then undo the move. The game ends as
     * it started.
     */
    method ResolveAction(move: nat) returns (action: PlayerAction)
      requires Valid() && Inverts(engine) && move < NumMoves
      modifies this
      ensures game == old(game)
      ensures action == ResolvedAction(engine, old(game), move)
    {
      var moveSrcIdx, moveDstIdx := DecodeMove(agentCache, move);
      if moveSrcIdx != MoveSkip {
        game := engine.makeMove(game, moveSrcIdx, moveDstIdx);
      }
      var actions := UsefulLegalActionsWithoutMoves();
      var abilitySrcIdx, abilityDstIdx := BestAbility(actions);
      if moveSrcIdx != MoveSkip {
        game := engine.undoMove(game, moveSrcIdx, moveDstIdx);
      }
      action := PlayerAction(moveSrcIdx, moveDstIdx, abilitySrcIdx, abilityDstIdx);
    }

    /** makeAction: play the decoded move together with the greedily chosen ability. */
    method MakeAction(move: nat)
      requires Valid() && Inverts(engine) && move < NumMoves
      modifies this
      ensures game == engine.makeAction(old(game), ResolvedAction(engine, old(game), move)).0
    {
      var action := ResolveAction(move);
      var (next, _) := engine.makeAction(game, action);
      game := next;
    }

    /** moveToPlayerAction: the same search, leaving the game as it was and writing the action as "ms.md.as.ad". */
    method MoveToPlayerAction(move: nat) returns (retval: string)
      requires Valid() && Inverts(engine) && move < NumMoves
      modifies this
      ensures game == old(game)
      ensures var a := ResolvedAction(engine, old(game), move);
        retval == FormatFields(a.moveSrcIdx, a.moveDstIdx, a.abilitySrcIdx, a.abilityDstIdx)
    {
      var action := ResolveAction(move);
      retval := IntToString(action.moveSrcIdx) + "." + IntToString(action.moveDstIdx) + "."
        + IntToString(action.abilitySrcIdx) + "." + IntToString(action.abilityDstIdx);
    }
  }
}
