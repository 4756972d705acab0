/**
 * The pure rules behind the Nichess game wrapper: which abilities are useful,
 * which empty-board moves stay legal, which action indices the mask sets, the
 * value of a position, and the greedy choice of an ability.
 */
module NichessRules {
  import opened Optional
  import opened NichessConstants
  import opened NichessCodec
  import opened NichessGame

  // ============================================================ useful abilities

  /**
   * The inner switch of each actor type's case, on the type of the piece on the
   * target square: true where it `continue`s (the ability is dropped), false
   * where it `break`s.
   */
  function DropsTarget(actor: PieceType, target: PieceType): bool
  {
    match actor
    case P1King => target == NoPiece || Owner(target) == Some(Player1)
    case P1Mage => target == NoPiece || Owner(target) == Some(Player1)
    case P1Pawn => target == NoPiece || Owner(target) == Some(Player1)
    case P1Warrior => target == NoPiece || Owner(target) == Some(Player1)
    case P1Assassin => target == NoPiece || Owner(target) == Some(Player1)
    case P2King => target == NoPiece || Owner(target) == Some(Player2)
    case P2Mage => target == NoPiece || Owner(target) == Some(Player2)
    case P2Pawn => target == NoPiece || Owner(target) == Some(Player2)
    case P2Warrior => target == NoPiece || Owner(target) == Some(Player2)
    case P2Assassin => target == NoPiece || Owner(target) == Some(Player2)
    case NoPiece => false
  }

  /**
   * Whether an ability is kept. The two king cases end without `break`, so after
   * their own switch they fall through into the mage case and run its switch too.
   */
  function KeepsAbility(actor: PieceType, target: PieceType): (r: bool)
    ensures actor != NoPiece && target == NoPiece ==> !r
    ensures actor != NoPiece && Owner(target) == Owner(actor) ==> !r
  {
    match actor
    case P1King => !DropsTarget(P1King, target) && !DropsTarget(P1Mage, target)
    case P2King => !DropsTarget(P2King, target) && !DropsTarget(P2Mage, target)
    case _ => !DropsTarget(actor, target)
  }

  /** The net rule of the table: every piece type keeps exactly the abilities aimed at an opponent's piece. */
  lemma KeptTargetIsEnemy(actor: PieceType, target: PieceType)
    requires actor != NoPiece
    ensures KeepsAbility(actor, target) <==> Owner(target).Some? && Owner(target) != Owner(actor)
  {
  }

  /** A useful ability as an action: no move, then the ability. */
  function AbilityAction(ab: PlayerAbility): (a: PlayerAction)
    ensures a.moveSrcIdx == MoveSkip && a.moveDstIdx == MoveSkip
    ensures a.abilitySrcIdx == ab.abilitySrcIdx && a.abilityDstIdx == ab.abilityDstIdx
  {
    PlayerAction(MoveSkip, MoveSkip, ab.abilitySrcIdx, ab.abilityDstIdx)
  }

  /** The kept abilities of one piece, in table order. */
  function AbilityCandidates(g: Game, actor: Piece, abilities: seq<PlayerAbility>): (r: seq<PlayerAction>)
    ensures forall a :: a in r <==>
      exists ab :: ab in abilities && KeepsAbility(actor.pieceType, g.board[ab.abilityDstIdx].pieceType) && a == AbilityAction(ab)
  {
    if abilities == [] then []
    else
      var last := abilities[|abilities| - 1];
      var rest := AbilityCandidates(g, actor, abilities[..|abilities| - 1]);
      assert forall ab :: ab in abilities <==> ab in abilities[..|abilities| - 1] || ab == last;
      if KeepsAbility(actor.pieceType, g.board[last.abilityDstIdx].pieceType)
      then rest + [AbilityAction(last)]
      else rest
  }

  predicate LivingOnBoard(pieces: seq<Piece>)
  {
    forall k :: 0 <= k < |pieces| && pieces[k].healthPoints > 0 ==> 0 <= pieces[k].squareIndex < NumSquares
  }

  /** The kept abilities of a roster's living pieces, piece by piece. */
  function RosterActions(e: Engine, g: Game, pieces: seq<Piece>): (r: seq<PlayerAction>)
    requires LivingOnBoard(pieces)
    ensures forall a :: a in r ==> a.moveSrcIdx == MoveSkip && a.moveDstIdx == MoveSkip
  {
    if pieces == [] then []
    else
      var p := pieces[|pieces| - 1];
      RosterActions(e, g, pieces[..|pieces| - 1])
        + (if p.healthPoints <= 0 then [] else AbilityCandidates(g, p, e.legalAbilities(p.pieceType, p.squareIndex)))
  }

  /** The useful actions of the side to move: none once its king is dead. */
  function UsefulActions(e: Engine, g: Game): (r: seq<PlayerAction>)
    ensures forall a :: a in r ==> a.moveSrcIdx == MoveSkip && a.moveDstIdx == MoveSkip
  {
    var pieces := Roster(g, g.currentPlayer);
    if pieces[KingPieceIndex].healthPoints <= 0 then [] else RosterActions(e, g, pieces)
  }

  /** The abilities a roster piece may use: alive, and one of its table's entries that the filter keeps. */
  ghost predicate UsefulFor(e: Engine, g: Game, pieces: seq<Piece>, k: int, ab: PlayerAbility)
    requires LivingOnBoard(pieces)
  {
    && 0 <= k < |pieces|
    && pieces[k].healthPoints > 0
    && ab in e.legalAbilities(pieces[k].pieceType, pieces[k].squareIndex)
    && KeepsAbility(pieces[k].pieceType, g.board[ab.abilityDstIdx].pieceType)
  }

  lemma {:induction false} RosterActionsMembers(e: Engine, g: Game, pieces: seq<Piece>, a: PlayerAction)
    requires LivingOnBoard(pieces)
    ensures a in RosterActions(e, g, pieces) <==> exists k, ab :: UsefulFor(e, g, pieces, k, ab) && a == AbilityAction(ab)
  {
    if pieces != [] {
      var init := pieces[..|pieces| - 1];
      var p := pieces[|pieces| - 1];
      RosterActionsMembers(e, g, init, a);
      if a in RosterActions(e, g, pieces) {
        if a in RosterActions(e, g, init) {
          var k, ab :| UsefulFor(e, g, init, k, ab) && a == AbilityAction(ab);
          assert UsefulFor(e, g, pieces, k, ab);
        } else {
          var ab :| ab in e.legalAbilities(p.pieceType, p.squareIndex)
            && KeepsAbility(p.pieceType, g.board[ab.abilityDstIdx].pieceType) && a == AbilityAction(ab);
          assert UsefulFor(e, g, pieces, |pieces| - 1, ab);
        }
      }
      if exists k, ab :: UsefulFor(e, g, pieces, k, ab) && a == AbilityAction(ab) {
        var k, ab :| UsefulFor(e, g, pieces, k, ab) && a == AbilityAction(ab);
        if k < |pieces| - 1 {
          assert UsefulFor(e, g, init, k, ab);
        }
      }
    }
  }

  /**
   * The useful actions are exactly the kept table abilities of the side to
   * move's living pieces, each with MOVE_SKIP as its move, and none at all once
   * that side's king is dead.
   */
  lemma UsefulActionsMembers(e: Engine, g: Game, a: PlayerAction)
    ensures var pieces := Roster(g, g.currentPlayer);
      a in UsefulActions(e, g) <==>
        pieces[KingPieceIndex].healthPoints > 0 && exists k, ab :: UsefulFor(e, g, pieces, k, ab) && a == AbilityAction(ab)
  {
    RosterActionsMembers(e, g, Roster(g, g.currentPlayer), a);
  }

  /** Every useful action skips the move and aims an ability at a square holding an opponent's piece. */
  lemma UsefulActionsTargetEnemies(e: Engine, g: Game, a: PlayerAction)
    requires a in UsefulActions(e, g)
    ensures a.moveSrcIdx == MoveSkip && a.moveDstIdx == MoveSkip
    ensures 0 <= a.abilityDstIdx < NumSquares
    ensures Owner(g.board[a.abilityDstIdx].pieceType) == Some(Other(g.currentPlayer))
  {
    var pieces := Roster(g, g.currentPlayer);
    UsefulActionsMembers(e, g, a);
    var k, ab :| UsefulFor(e, g, pieces, k, ab) && a == AbilityAction(ab);
    KeptTargetIsEnemy(pieces[k].pieceType, g.board[ab.abilityDstIdx].pieceType);
  }

  /** With the king dead there is nothing to choose from. */
  lemma DeadKingNoActions(e: Engine, g: Game)
    requires Roster(g, g.currentPlayer)[KingPieceIndex].healthPoints <= 0
    ensures UsefulActions(e, g) == []
  {
  }

  // ============================================================ legal moves

  /**
   * A move from the empty-board table stays legal when its destination is empty
   * and, for a pawn's two-row advance, the square it passes over is empty too.
   */
  predicate MoveKept(g: Game, piece: Piece, m: PlayerMove)
    requires 0 <= piece.squareIndex < NumSquares
  {
    && g.board[m.moveDstIdx].pieceType == NoPiece
    && !(piece.pieceType == P1Pawn && piece.squareIndex - m.moveDstIdx == -2 * NumColumns
         && g.board[piece.squareIndex + NumColumns].pieceType != NoPiece)
    && !(piece.pieceType == P2Pawn && piece.squareIndex - m.moveDstIdx == 2 * NumColumns
         && g.board[piece.squareIndex - NumColumns].pieceType != NoPiece)
  }

  /** The moves the filter keeps, in table order. */
  function KeptMoves(g: Game, piece: Piece, moves: seq<PlayerMove>): (r: seq<PlayerMove>)
    requires 0 <= piece.squareIndex < NumSquares
    ensures |r| <= |moves|
    ensures forall m :: m in r <==> m in moves && MoveKept(g, piece, m)
  {
    if moves == [] then []
    else
      var last := moves[|moves| - 1];
      assert forall m :: m in moves <==> m in moves[..|moves| - 1] || m == last;
      var rest := KeptMoves(g, piece, moves[..|moves| - 1]);
      if MoveKept(g, piece, last) then rest + [last] else rest
  }

  /** One more move: the filter appends it exactly when it is kept. */
  lemma KeptMovesSnoc(g: Game, piece: Piece, moves: seq<PlayerMove>, i: nat)
    requires 0 <= piece.squareIndex < NumSquares && i < |moves|
    ensures KeptMoves(g, piece, moves[..i + 1])
      == KeptMoves(g, piece, moves[..i]) + (if MoveKept(g, piece, moves[i]) then [moves[i]] else [])
  {
    assert moves[..i + 1][..i] == moves[..i];
    assert moves[..i + 1][i] == moves[i];
  }

  /** a is b with some elements left out, order kept. */
  ghost predicate IsSubsequence<T>(a: seq<T>, b: seq<T>)
    decreases |b|
  {
    if b == [] then a == []
    else
      || IsSubsequence(a, b[..|b| - 1])
      || (a != [] && a[|a| - 1] == b[|b| - 1] && IsSubsequence(a[..|a| - 1], b[..|b| - 1]))
  }

  /** The kept moves are a subsequence of the empty-board moves. */
  lemma {:induction false} KeptMovesSubsequence(g: Game, piece: Piece, moves: seq<PlayerMove>)
    requires 0 <= piece.squareIndex < NumSquares
    ensures IsSubsequence(KeptMoves(g, piece, moves), moves)
  {
    if moves != [] {
      var init := moves[..|moves| - 1];
      KeptMovesSubsequence(g, piece, init);
      var r := KeptMoves(g, piece, moves);
      if MoveKept(g, piece, moves[|moves| - 1]) {
        assert r[..|r| - 1] == KeptMoves(g, piece, init);
      }
    }
  }

  /** The legal moves of a piece: its empty-board moves that the filter keeps. */
  function LegalMovesOf(e: Engine, g: Game, piece: Piece): seq<PlayerMove>
    requires 0 <= piece.squareIndex < NumSquares
  {
    KeptMoves(g, piece, e.legalMoves(piece.pieceType, piece.squareIndex))
  }

  /** A pawn's two-row advance over an occupied square is never legal. */
  lemma PawnCannotJump(e: Engine, g: Game, piece: Piece, m: PlayerMove)
    requires 0 <= piece.squareIndex < NumSquares
    requires piece.pieceType == P1Pawn && m.moveDstIdx == piece.squareIndex + 2 * NumColumns
    requires g.board[piece.squareIndex + NumColumns].pieceType != NoPiece
    ensures m !in LegalMovesOf(e, g, piece)
  {
  }

  // ============================================================ the action mask

  /** The indices a list of moves sets, through the source -> destination -> index table. */
  function MoveIndices(moves: seq<PlayerMove>): (r: set<int>)
    ensures forall i :: i in r ==> 0 <= i < MoveSkipIdx
  {
    set m | m in moves :: EncodedIndex(m.moveSrcIdx, m.moveDstIdx)
  }

  /** One more move adds its index. */
  lemma MoveIndicesSnoc(moves: seq<PlayerMove>, j: nat)
    requires j < |moves|
    ensures MoveIndices(moves[..j + 1]) == MoveIndices(moves[..j]) + {EncodedIndex(moves[j].moveSrcIdx, moves[j].moveDstIdx)}
  {
    assert moves[..j + 1] == moves[..j] + [moves[j]];
  }

  /** The indices the living pieces of a roster set, piece by piece. */
  function LegalIndices(e: Engine, g: Game, pieces: seq<Piece>): (r: set<int>)
    requires LivingOnBoard(pieces)
    ensures forall i :: i in r ==> 0 <= i < MoveSkipIdx
  {
    if pieces == [] then {}
    else
      var p := pieces[|pieces| - 1];
      LegalIndices(e, g, pieces[..|pieces| - 1])
        + (if p.healthPoints <= 0 then {} else MoveIndices(LegalMovesOf(e, g, p)))
  }

  /** The legal move mask of the side to move: a bit per action index; MOVE_SKIP only when nothing else is legal. */
  function ValidsMask(e: Engine, g: Game): (r: seq<int>)
    ensures |r| == NumMoves
    ensures forall i :: 0 <= i < NumMoves ==> r[i] == 0 || r[i] == 1
  {
    var legal := LegalIndices(e, g, Roster(g, g.currentPlayer));
    seq(NumMoves, i requires 0 <= i < NumMoves =>
      if i < MoveSkipIdx then (if i in legal then 1 else 0)
      else (if legal == {} then 1 else 0))
  }

  /** One more piece of the roster adds its legal moves' indices, if it is alive. */
  lemma LegalIndicesSnoc(e: Engine, g: Game, pieces: seq<Piece>, k: nat)
    requires LivingOnBoard(pieces) && k < |pieces|
    ensures LegalIndices(e, g, pieces[..k + 1]) == LegalIndices(e, g, pieces[..k])
      + (if pieces[k].healthPoints <= 0 then {} else MoveIndices(LegalMovesOf(e, g, pieces[k])))
  {
    assert pieces[..k + 1][..k] == pieces[..k];
    assert pieces[..k + 1][k] == pieces[k];
  }

  /** A sequence that agrees with the mask bit by bit is the mask. */
  lemma MaskByIndex(e: Engine, g: Game, valids: seq<int>)
    requires |valids| == NumMoves
    requires forall i :: 0 <= i < MoveSkipIdx ==>
      valids[i] == if i in LegalIndices(e, g, Roster(g, g.currentPlayer)) then 1 else 0
    requires valids[MoveSkipIdx] == if LegalIndices(e, g, Roster(g, g.currentPlayer)) == {} then 1 else 0
    ensures valids == ValidsMask(e, g)
  {
    var mask := ValidsMask(e, g);
    assert |mask| == NumMoves;
    forall i | 0 <= i < NumMoves
      ensures valids[i] == mask[i]
    {
    }
  }

  /** Piece k of the roster is alive and has a legal move m. */
  ghost predicate LegalMoveOf(e: Engine, g: Game, pieces: seq<Piece>, k: int, m: PlayerMove)
    requires LivingOnBoard(pieces)
  {
    0 <= k < |pieces| && pieces[k].healthPoints > 0 && m in LegalMovesOf(e, g, pieces[k])
  }

  /** Every index in the set comes from a legal move of a living roster piece. */
  lemma {:induction false} LegalIndicesSound(e: Engine, g: Game, pieces: seq<Piece>, i: int)
    requires LivingOnBoard(pieces)
    requires i in LegalIndices(e, g, pieces)
    ensures exists k, m :: LegalMoveOf(e, g, pieces, k, m) && EncodedIndex(m.moveSrcIdx, m.moveDstIdx) == i
  {
    var init := pieces[..|pieces| - 1];
    var p := pieces[|pieces| - 1];
    if i in LegalIndices(e, g, init) {
      LegalIndicesSound(e, g, init, i);
      var k, m :| LegalMoveOf(e, g, init, k, m) && EncodedIndex(m.moveSrcIdx, m.moveDstIdx) == i;
      assert LegalMoveOf(e, g, pieces, k, m);
    } else {
      assert p.healthPoints > 0 && i in MoveIndices(LegalMovesOf(e, g, p));
      var m :| m in LegalMovesOf(e, g, p) && EncodedIndex(m.moveSrcIdx, m.moveDstIdx) == i;
      assert LegalMoveOf(e, g, pieces, |pieces| - 1, m);
    }
  }

  /** Every legal move of a living roster piece puts its index in the set. */
  lemma {:induction false} LegalIndicesComplete(e: Engine, g: Game, pieces: seq<Piece>, k: int, m: PlayerMove)
    requires LivingOnBoard(pieces)
    requires LegalMoveOf(e, g, pieces, k, m)
    ensures EncodedIndex(m.moveSrcIdx, m.moveDstIdx) in LegalIndices(e, g, pieces)
  {
    var init := pieces[..|pieces| - 1];
    if k < |pieces| - 1 {
      assert LegalMoveOf(e, g, init, k, m);
      LegalIndicesComplete(e, g, init, k, m);
    } else {
      assert EncodedIndex(m.moveSrcIdx, m.moveDstIdx) in MoveIndices(LegalMovesOf(e, g, pieces[k]));
    }
  }

  lemma LegalIndicesMembers(e: Engine, g: Game, pieces: seq<Piece>, i: int)
    requires LivingOnBoard(pieces)
    ensures i in LegalIndices(e, g, pieces) <==>
      exists k, m :: LegalMoveOf(e, g, pieces, k, m) && EncodedIndex(m.moveSrcIdx, m.moveDstIdx) == i
  {
    if i in LegalIndices(e, g, pieces) {
      LegalIndicesSound(e, g, pieces, i);
    }
    if exists k, m :: LegalMoveOf(e, g, pieces, k, m) && EncodedIndex(m.moveSrcIdx, m.moveDstIdx) == i {
      var k, m :| LegalMoveOf(e, g, pieces, k, m) && EncodedIndex(m.moveSrcIdx, m.moveDstIdx) == i;
      LegalIndicesComplete(e, g, pieces, k, m);
    }
  }

  /**
   * The mask has NUM_MOVES entries, each 0 or 1. A non-skip bit is set exactly
   * when a living piece of the side to move has a legal move with that index;
   * the skip bit is set exactly when no other bit is.
   */
  lemma MaskMeaning(e: Engine, g: Game)
    ensures |ValidsMask(e, g)| == NumMoves
    ensures forall i :: 0 <= i < NumMoves ==> ValidsMask(e, g)[i] == 0 || ValidsMask(e, g)[i] == 1
    ensures forall i :: 0 <= i < MoveSkipIdx ==>
      (ValidsMask(e, g)[i] == 1 <==>
        exists k, m :: LegalMoveOf(e, g, Roster(g, g.currentPlayer), k, m) && EncodedIndex(m.moveSrcIdx, m.moveDstIdx) == i)
    ensures ValidsMask(e, g)[MoveSkipIdx] == 1 <==> forall i :: 0 <= i < MoveSkipIdx ==> ValidsMask(e, g)[i] == 0
  {
    var pieces := Roster(g, g.currentPlayer);
    var legal := LegalIndices(e, g, pieces);
    forall i | 0 <= i < MoveSkipIdx
      ensures ValidsMask(e, g)[i] == 1 <==>
        exists k, m :: LegalMoveOf(e, g, pieces, k, m) && EncodedIndex(m.moveSrcIdx, m.moveDstIdx) == i
    {
      LegalIndicesMembers(e, g, pieces, i);
    }
    if legal != {} {
      var i :| i in legal;
      assert ValidsMask(e, g)[i] == 1;
    }
  }

  /** Some action is always legal: the mask never comes out all zero. */
  lemma MaskNeverEmpty(e: Engine, g: Game)
    ensures exists i :: 0 <= i < NumMoves && ValidsMask(e, g)[i] == 1
  {
    MaskMeaning(e, g);
    if ValidsMask(e, g)[MoveSkipIdx] != 1 {
      var i :| 0 <= i < MoveSkipIdx && ValidsMask(e, g)[i] != 0;
      assert ValidsMask(e, g)[i] == 1;
    }
  }

  /** Every move the library's empty-board table lists follows the 28-slot template. */
  ghost predicate MovesFollowTemplate(e: Engine)
  {
    forall t, s, m :: m in e.legalMoves(t, s) ==> Reaches(m.moveSrcIdx, m.moveDstIdx)
  }

  /**
   * When the library's moves follow the template, every set non-skip bit decodes,
   * through the index -> (source, destination) table, to a legal move of a living
   * piece of the side to move, and so to an empty destination square.
   */
  lemma MaskBitDecodesToLegalMove(e: Engine, g: Game, i: int)
    requires MovesFollowTemplate(e)
    requires 0 <= i < MoveSkipIdx && ValidsMask(e, g)[i] == 1
    ensures exists k, m ::
      LegalMoveOf(e, g, Roster(g, g.currentPlayer), k, m) && DecodedMove(i) == (m.moveSrcIdx, m.moveDstIdx)
    ensures 0 <= DecodedMove(i).1 < NumSquares && g.board[DecodedMove(i).1].pieceType == NoPiece
  {
    var pieces := Roster(g, g.currentPlayer);
    MaskMeaning(e, g);
    var k, m :| LegalMoveOf(e, g, pieces, k, m) && EncodedIndex(m.moveSrcIdx, m.moveDstIdx) == i;
    ReachablePairRoundTrip(m.moveSrcIdx, m.moveDstIdx);
  }

  // ============================================================ position value

  function PieceTypeToValueMultiplier(pt: PieceType): int
  {
    match pt
    case P1King => 1000
    case P1Mage => 10
    case P1Pawn => 1
    case P1Warrior => 5
    case P1Assassin => 15
    case P2King => 1000
    case P2Mage => 10
    case P2Pawn => 1
    case P2Warrior => 5
    case P2Assassin => 15
    case NoPiece => 0
  }

  /** What one piece adds for its own side: its health times its multiplier, or a fixed -100 times the multiplier when dead. */
  function Contribution(p: Piece): int
  {
    if p.healthPoints <= 0 then -(PieceTypeToValueMultiplier(p.pieceType) * 100)
    else PieceTypeToValueMultiplier(p.pieceType) * p.healthPoints
  }

  /** The sum of a roster's contributions. */
  function Material(pieces: seq<Piece>): int
  {
    if pieces == [] then 0 else Material(pieces[..|pieces| - 1]) + Contribution(pieces[|pieces| - 1])
  }

  /**
   * The value of the position for a player: player 1's material minus player
   * 2's (the two loops of the source), negated for player 2.
   */
  function PositionValue(g: Game, player: Player): (r: int)
    ensures r == Material(Roster(g, player)) - Material(Roster(g, Other(player)))
  {
    var retval := Material(Roster(g, Player1)) - Material(Roster(g, Player2));
    if player == Player2 then -retval else retval
  }

  /** The value is zero-sum: player 2's value is the negation of player 1's. */
  lemma PositionValueZeroSum(g: Game)
    ensures PositionValue(g, Player2) == -PositionValue(g, Player1)
    ensures PositionValue(g, Other(g.currentPlayer)) == -PositionValue(g, g.currentPlayer)
  {
  }

  /** Replacing one piece of a roster changes its material by the difference of the two contributions. */
  lemma {:induction false} MaterialUpdate(pieces: seq<Piece>, k: int, p: Piece)
    requires 0 <= k < |pieces|
    ensures Material(pieces[k := p]) == Material(pieces) - Contribution(pieces[k]) + Contribution(p)
  {
    var n := |pieces|;
    if k == n - 1 {
      assert pieces[k := p][..n - 1] == pieces[..n - 1];
    } else {
      MaterialUpdate(pieces[..n - 1], k, p);
      assert pieces[k := p][..n - 1] == pieces[..n - 1][k := p];
    }
  }

  /** A dead piece counts as -100 times its multiplier whatever its health, so more damage to it changes nothing. */
  lemma DeadPieceFixedValue(pieces: seq<Piece>, k: int, health: int)
    requires 0 <= k < |pieces| && pieces[k].healthPoints <= 0 && health <= 0
    ensures Contribution(pieces[k]) == -100 * PieceTypeToValueMultiplier(pieces[k].pieceType)
    ensures Material(pieces[k := pieces[k].(healthPoints := health)]) == Material(pieces)
  {
    MaterialUpdate(pieces, k, pieces[k].(healthPoints := health));
  }

  /** Damage to a living piece of player 2 raises player 1's value by the multiplier times the damage. */
  lemma DamageRaisesValue(pieces: seq<Piece>, k: int, health: int)
    requires 0 <= k < |pieces| && 0 < health <= pieces[k].healthPoints
    ensures Material(pieces[k := pieces[k].(healthPoints := health)])
      == Material(pieces) - PieceTypeToValueMultiplier(pieces[k].pieceType) * (pieces[k].healthPoints - health)
  {
    MaterialUpdate(pieces, k, pieces[k].(healthPoints := health));
  }

  // ============================================================ greedy ability choice

  /** The index of the first strictly greatest value, folded left to right as the search loop does. */
  function FirstMaxIndex(values: seq<int>): (r: Option<nat>)
    ensures r.None? <==> values == []
    ensures r.Some? ==> r.value < |values|
    ensures r.Some? ==> forall j :: 0 <= j < |values| ==> values[j] <= values[r.value]
    ensures r.Some? ==> forall j :: 0 <= j < r.value ==> values[j] < values[r.value]
  {
    if values == [] then None
    else
      var k := FirstMaxIndex(values[..|values| - 1]);
      if k.None? || values[|values| - 1] > values[k.value] then Some(|values| - 1) else k
  }

  /** The fold's last step: the last value is taken only if it beats the best before it. */
  lemma FirstMaxIndexSnoc(values: seq<int>)
    requires values != []
    ensures var k := FirstMaxIndex(values[..|values| - 1]);
      FirstMaxIndex(values) == if k.None? || values[|values| - 1] > values[k.value] then Some(|values| - 1) else k
  {
  }

  /** Only one index is both a maximum and strictly above everything before it. */
  lemma FirstMaxIndexUnique(values: seq<int>, k: nat)
    requires k < |values|
    requires forall j :: 0 <= j < |values| ==> values[j] <= values[k]
    requires forall j :: 0 <= j < k ==> values[j] < values[k]
    ensures FirstMaxIndex(values) == Some(k)
  {
  }

  /** Value of the position after a speculative ability, for the player opposite to the one to move afterwards. */
  function SpeculativeValue(e: Engine, g: Game, a: PlayerAction): int
  {
    var after := e.makeAction(g, PlayerAction(MoveSkip, MoveSkip, a.abilitySrcIdx, a.abilityDstIdx)).0;
    PositionValue(after, Other(after.currentPlayer))
  }

  function Values(e: Engine, g: Game, actions: seq<PlayerAction>): (v: seq<int>)
    ensures |v| == |actions|
    ensures forall j :: 0 <= j < |actions| ==> v[j] == SpeculativeValue(e, g, actions[j])
  {
    seq(|actions|, j requires 0 <= j < |actions| => SpeculativeValue(e, g, actions[j]))
  }

  /** The chosen ability: that of the first action of greatest value, or (ABILITY_SKIP, ABILITY_SKIP) if there is none. */
  function ChosenAbility(e: Engine, g: Game, actions: seq<PlayerAction>): (int, int)
  {
    match FirstMaxIndex(Values(e, g, actions))
    case None => (AbilitySkip, AbilitySkip)
    case Some(k) => (actions[k].abilitySrcIdx, actions[k].abilityDstIdx)
  }

  /** The greatest value among the actions, None (standing for -FLT_MAX) when there is none. */
  function BestValue(e: Engine, g: Game, actions: seq<PlayerAction>): Option<int>
  {
    match FirstMaxIndex(Values(e, g, actions))
    case None => None
    case Some(k) => Some(Values(e, g, actions)[k])
  }

  /** One more action: the choice moves to it exactly when its value beats the best so far. */
  lemma GreedyStep(e: Engine, g: Game, actions: seq<PlayerAction>, l: nat)
    requires l < |actions|
    ensures var best := BestValue(e, g, actions[..l]);
      var v := SpeculativeValue(e, g, actions[l]);
      var takes := best.None? || v > best.value;
      && BestValue(e, g, actions[..l + 1]) == (if takes then Some(v) else best)
      && ChosenAbility(e, g, actions[..l + 1])
         == (if takes then (actions[l].abilitySrcIdx, actions[l].abilityDstIdx) else ChosenAbility(e, g, actions[..l]))
  {
    var values := Values(e, g, actions[..l + 1]);
    var prefix := Values(e, g, actions[..l]);
    assert values[..l] == prefix;
    assert values[l] == SpeculativeValue(e, g, actions[l]);
    FirstMaxIndexSnoc(values);
    var before := FirstMaxIndex(prefix);
    assert before.Some? ==> actions[..l + 1][before.value] == actions[..l][before.value];
    assert actions[..l + 1][l] == actions[l];
  }

  /** The (source, destination) a move index stands for. */
  function DecodeMoveIndex(move: nat): (int, int)
    requires move < NumMoves
  {
    if move == MoveSkipIdx then (MoveSkip, MoveSkip) else DecodedMove(move)
  }

  function AfterMove(e: Engine, g: Game, src: int, dst: int): Game
  {
    if src != MoveSkip then e.makeMove(g, src, dst) else g
  }

  /** The combined action a turn resolves to: the decoded move, then the greedy ability in the position after it. */
  function ResolvedAction(e: Engine, g: Game, move: nat): (r: PlayerAction)
    requires move < NumMoves
    ensures move == MoveSkipIdx ==> r.moveSrcIdx == MoveSkip && r.moveDstIdx == MoveSkip
    ensures move < MoveSkipIdx ==> (r.moveSrcIdx, r.moveDstIdx) == DecodedMove(move)
  {
    var (src, dst) := DecodeMoveIndex(move);
    var after := AfterMove(e, g, src, dst);
    var (abilitySrc, abilityDst) := ChosenAbility(e, after, UsefulActions(e, after));
    PlayerAction(src, dst, abilitySrc, abilityDst)
  }

  /** Action k has the greatest speculative value, every earlier one is worth strictly less, and a carries its ability. */
  ghost predicate GreedyPick(e: Engine, g: Game, actions: seq<PlayerAction>, k: int, a: PlayerAction)
  {
    && 0 <= k < |actions|
    && (a.abilitySrcIdx, a.abilityDstIdx) == (actions[k].abilitySrcIdx, actions[k].abilityDstIdx)
    && (forall j :: 0 <= j < |actions| ==> SpeculativeValue(e, g, actions[j]) <= SpeculativeValue(e, g, actions[k]))
    && (forall j :: 0 <= j < k ==> SpeculativeValue(e, g, actions[j]) < SpeculativeValue(e, g, actions[k]))
  }

  /**
   * The resolved action carries the decoded move. Its ability is (ABILITY_SKIP,
   * ABILITY_SKIP) exactly when no useful action exists after the move; otherwise
   * it is that of a useful action k whose speculative value is the greatest, and
   * every useful action before k is worth strictly less.
   */
  lemma ResolvedActionIsGreedy(e: Engine, g: Game, move: nat)
    requires move < NumMoves
    ensures var a := ResolvedAction(e, g, move);
      (a.moveSrcIdx, a.moveDstIdx) == DecodeMoveIndex(move)
    ensures var a := ResolvedAction(e, g, move);
      var after := AfterMove(e, g, a.moveSrcIdx, a.moveDstIdx);
      var actions := UsefulActions(e, after);
      && (actions == [] ==> (a.abilitySrcIdx, a.abilityDstIdx) == (AbilitySkip, AbilitySkip))
      && (actions != [] ==> exists k :: GreedyPick(e, after, actions, k, a))
  {
    var (src, dst) := DecodeMoveIndex(move);
    var after := AfterMove(e, g, src, dst);
    var actions := UsefulActions(e, after);
    var values := Values(e, after, actions);
    if actions != [] {
      var k := FirstMaxIndex(values).value;
      assert GreedyPick(e, after, actions, k, ResolvedAction(e, g, move));
    }
  }
}
