# Nichess action layer and Brandubh position identity, in Dafny

This project models two parts of an AlphaZero self-play engine.

**Nichess action layer** (`src/nichess_wrapper.cc`, `src/nichess_gs.cc`, `src/nichess_constants.h`):
- the move-index codec of the agent cache: 28 slots per source square, 1793 action indices with the last one reserved for MOVE_SKIP;
- the legal-move mask the network is trained against;
- the filter that keeps only useful abilities;
- the material-based position value;
- the one-ply greedy search that completes a chosen move with an ability, using make/undo;
- the Nichess game state surface: equality, hash fields, scores, the canonical tensor, symmetries and delegation.

**Brandubh position identity** (`src/brandubh_gs.h`):
- repetition keys that compare and hash by content;
- key wrappers that share one key;
- the shared intern pool that a restored state prunes;
- the fixed starting position and its agreement with the variant's rule string.

The nichess game library itself is not part of this model. Its game object is the value type `NichessGame.Game`. Its empty-board move and ability tables, make/undo routines and winner test are the function fields of an `NichessGame.Engine` record. Every property about the wrapper therefore holds for whatever tables and routines the library provides, under these assumptions about the library:
- `NichessGame.Inverts`: each undo exactly reverts its make. The resolver requires it.
- `NichessRules.MovesFollowTemplate`: empty-board moves follow the 28-slot template. Only `NichessRules.MaskBitDecodesToLegalMove` requires it.
- `NichessGame.Game` is a subset type (`WellFormed`). Every game the library hands back, from a make or an undo included, has a 64-square board and two non-empty rosters whose pieces belong to their player and whose living pieces stand on the board.
- The library's constants have fixed values (listed under "## Left out").
- The library's `~` on players is `NichessGame.Other`: it swaps player 1 and player 2.

Modules and files:
- `optional.dfy` (`Optional`)
- `nichess_constants.dfy` (`NichessConstants`)
- `nichess_codec.dfy` (`NichessCodec`: the two table builders and the `AgentCache` class)
- `nichess_game.dfy` (`NichessGame`: the library surface)
- `nichess_rules.dfy` (`NichessRules`: pure specification functions and the lemmas about them)
- `nichess_wrapper.dfy` (`NichessWrapper`: the `GameWrapper` class with its imperative methods)
- `nichess_gs.dfy` (`NichessState`: the `NichessGS` class and the canonical tensor)
- `brandubh.dfy` (`Brandubh`)
- `text.dfy` (`Text`: `std::to_string` and the dotted action string)

Each imperative method is proved against a specification function. Those functions carry the lemmas:
- `GameWrapper.ComputeValids` returns exactly `ValidsMask`, and `MaskMeaning` says what that mask means.
- `GameWrapper.MakeAction` applies `ResolvedAction`, and `ResolvedActionIsGreedy` says that action is the first strict maximum.
- `InternPool.Prune` leaves exactly `Pruned`, and `PrunedMembers` and `PruneIdempotent` describe it.

## Model

| member | source | states |
|---|---|---|
| NichessConstants.ActionSpaceLayout | src/nichess_constants.h:5-17 | MOVE_SKIP_IDX is the last index, NUM_MOVES = 64*28 + 1, there are 64 squares, the board shape is 2x8x8 and the canonical tensor has 22 channels over 8x8 |
| NichessConstants.SplitMoveIndex | src/nichess_constants.h:8-10 | every non-skip index is src*28 + n with src < 64 and n < 28 |
| NichessConstants.SlotIndexSplits | src/nichess_constants.h:8-10 | each (source, slot) pair is a distinct non-skip index, and splitting that index gives the pair back |
| NichessCodec.CoordinatesRoundTrip | src/nichess_wrapper.cc:86 | on-board coordinates name a square whose column and row are those coordinates |
| NichessCodec.SlotsAreTemplate | src/nichess_wrapper.cc:17-62 | the 28 slots are the 24 neighbourhood offsets in scan order (never the centre), then four (±3, ±3) leaps |
| NichessCodec.NeighbourSlotOffset | src/nichess_wrapper.cc:17-30 | a neighbourhood offset's slot stands for that offset |
| NichessCodec.SlotOffsetInjective | src/nichess_wrapper.cc:17-62 | distinct slots stand for distinct offsets |
| NichessCodec.DecodedMove | src/nichess_wrapper.cc:9-66 | every index below MOVE_SKIP decodes to an on-board source square (or the default 0); an index whose slot lands on the board also decodes to an on-board destination |
| NichessCodec.EncodedIndex | src/nichess_wrapper.cc:68-128 | every entry of the source -> destination -> index table is a non-skip index |
| NichessCodec.EncodeDecodeRoundTrip | src/nichess_wrapper.cc:9-128 | for every source and every slot with an on-board target, the encoder returns that slot's index, and the decoder maps it back to (source, destination) |
| NichessCodec.DecodeEncodeRoundTrip | src/nichess_wrapper.cc:9-128 | an index whose slot lands on the board decodes to on-board squares that encode back to the same index |
| NichessCodec.ReachablePairRoundTrip | src/nichess_wrapper.cc:9-128 | for every pair some slot connects, the index lies in the source's block of 28 and decodes to the pair |
| NichessCodec.UnreachablePairDefaults | src/nichess_wrapper.cc:74 | a pair no slot connects keeps the zeroed row's default index 0 |
| NichessCodec.OffBoardSlotAliases | src/nichess_wrapper.cc:22-28 | an off-board neighbourhood slot still stores the raw y*8+x of its target, which can alias an on-board square the source cannot reach |
| NichessCodec.NeighbourEntry | src/nichess_wrapper.cc:22-27 | a neighbourhood slot's entry is (source, raw target index) |
| NichessCodec.WriteNeighbour | src/nichess_wrapper.cc:22-28 | writing one neighbourhood slot at the running slot count extends the filled prefix of the source's block by one and changes nothing else |
| NichessCodec.WriteNeighbourhood | src/nichess_wrapper.cc:17-30 | the 24 neighbourhood entries of a source are the decoded moves, and every other entry is unchanged |
| NichessCodec.WriteLeap | src/nichess_wrapper.cc:31-62 | a leap slot is written only when its target is on the board; otherwise it keeps the default (0, 0) |
| NichessCodec.WriteSourceSlots | src/nichess_wrapper.cc:15-62 | all 28 entries of a source's block are decoded moves, and the rest of the table is unchanged |
| NichessCodec.GenerateMoveIndexToSrcSquareAndDstSquare | src/nichess_wrapper.cc:9-66 | the built table has NUM_MOVES - 1 entries, and entry i is DecodedMove(i) |
| NichessCodec.ScanOffBoard | src/nichess_wrapper.cc:80-84 | passing an off-board offset or the centre without writing leaves the row correct up to the next scan position: every neighbourhood entry scanned so far holds its encoded index and every other entry is still 0 |
| NichessCodec.ScanWrite | src/nichess_wrapper.cc:86-88 | writing an on-board neighbour's index advances the row by one scan position and disturbs no other destination |
| NichessCodec.WriteLeapEntry | src/nichess_wrapper.cc:91-122 | each leap writes its index only when it lands on the board; a missed leap leaves 0 |
| NichessCodec.GenerateRow | src/nichess_wrapper.cc:73-124 | the destination row of a source holds EncodedIndex(source, d) for every destination d |
| NichessCodec.GenerateSrcSquareToDstSquareToMoveIndex | src/nichess_wrapper.cc:68-128 | the built table is 64x64, and entry [s][d] is EncodedIndex(s, d) |
| NichessCodec.AgentCache.constructor | src/nichess_wrapper.cc:130-133 | the cache holds both tables, each equal to its closed form |
| NichessRules.KeepsAbility | src/nichess_wrapper.cc:180-474 | whatever piece acts, an ability aimed at an empty square or at a piece of the actor's own side is dropped, the kings' fall-through into the mage switch included |
| NichessRules.KeptTargetIsEnemy | src/nichess_wrapper.cc:180-474 | with the king cases falling through into the mage cases, every piece type keeps an ability exactly when its target holds an opponent's piece |
| NichessRules.AbilityCandidates | src/nichess_wrapper.cc:177-478 | the kept candidates are exactly the table abilities whose target the filter keeps, each as a MOVE_SKIP action |
| NichessRules.RosterActions | src/nichess_wrapper.cc:173-479 | every action collected from the roster skips the move (MOVE_SKIP, MOVE_SKIP) |
| NichessRules.RosterActionsMembers | src/nichess_wrapper.cc:173-479 | an action is produced exactly when some living roster piece has that kept ability |
| NichessRules.UsefulActions | src/nichess_wrapper.cc:166-481 | every useful action of the side to move is ability-only: its move is (MOVE_SKIP, MOVE_SKIP) |
| NichessRules.UsefulActionsMembers | src/nichess_wrapper.cc:166-481 | the useful actions are exactly the kept abilities of the side to move's living pieces, and none once its king is dead |
| NichessRules.UsefulActionsTargetEnemies | src/nichess_wrapper.cc:162-165 | every useful action skips the move and targets an on-board square holding an opponent's piece |
| NichessRules.DeadKingNoActions | src/nichess_wrapper.cc:168-171 | with the side to move's king dead, there are no useful actions |
| NichessRules.KeptMoves | src/nichess_wrapper.cc:489-509 | a move is kept exactly when it is in the input and passes the filter; the output is no longer than the input |
| NichessRules.KeptMovesSnoc | src/nichess_wrapper.cc:489-509 | one more empty-board move is appended exactly when it is kept |
| NichessRules.KeptMovesSubsequence | src/nichess_wrapper.cc:486-511 | the legal moves are a subsequence of the empty-board moves, in order |
| NichessRules.PawnCannotJump | src/nichess_wrapper.cc:493-499 | a player 1 pawn's two-row advance over an occupied square is never legal |
| NichessRules.LegalIndices | src/nichess_wrapper.cc:518-526 | every index the roster sets is a non-skip index |
| NichessRules.LegalIndicesSound | src/nichess_wrapper.cc:518-526 | every set index comes from a legal move of a living roster piece |
| NichessRules.LegalIndicesComplete | src/nichess_wrapper.cc:518-526 | every legal move of a living roster piece sets its index |
| NichessRules.LegalIndicesMembers | src/nichess_wrapper.cc:518-526 | an index is set if and only if some living roster piece has a legal move with that index |
| NichessRules.ValidsMask | src/nichess_wrapper.cc:513-536 | the mask has exactly NUM_MOVES entries, each 0 or 1 |
| NichessRules.MaskMeaning | src/nichess_wrapper.cc:513-536 | the mask has NUM_MOVES 0/1 entries; a non-skip bit is set iff a living piece of the side to move has a legal move with that index; the skip bit is set iff no other bit is |
| NichessRules.MaskNeverEmpty | src/nichess_wrapper.cc:527-533 | at least one bit of the mask is always set |
| NichessRules.MaskBitDecodesToLegalMove | src/nichess_wrapper.cc:9-128 | when the library's moves follow the slot template, each set non-skip bit decodes to a legal move of a living piece of the side to move, with an empty destination |
| NichessRules.PositionValue | src/nichess_wrapper.cc:568-589 | a player's value is its own roster's material minus its opponent's |
| NichessRules.PositionValueZeroSum | src/nichess_wrapper.cc:568-589 | player 2's value is the negation of player 1's |
| NichessRules.MaterialUpdate | src/nichess_wrapper.cc:571-585 | replacing one piece changes a roster's material by the difference of the two contributions |
| NichessRules.DeadPieceFixedValue | src/nichess_wrapper.cc:572-575 | a dead piece counts -100 times its multiplier whatever its health |
| NichessRules.DamageRaisesValue | src/nichess_wrapper.cc:576 | damage to a living piece lowers its roster's material by its multiplier times the damage |
| NichessRules.FirstMaxIndex | src/nichess_wrapper.cc:616-623 | the chosen index holds a greatest value, every earlier value is strictly smaller, and there is none only for no values |
| NichessRules.FirstMaxIndexSnoc | src/nichess_wrapper.cc:618-622 | one more value is taken only if it strictly beats the best so far |
| NichessRules.FirstMaxIndexUnique | src/nichess_wrapper.cc:616-623 | only one index is both a maximum and strictly above everything before it |
| NichessRules.GreedyStep | src/nichess_wrapper.cc:616-623 | after each probe, the best value and the chosen ability change exactly when the new value beats the best so far, or nothing was chosen yet |
| NichessRules.ResolvedAction | src/nichess_wrapper.cc:595-628 | the MOVE_SKIP index resolves to a skipped move; every other index resolves to the (source, destination) pair the agent cache's decoder stores for it |
| NichessRules.ResolvedActionIsGreedy | src/nichess_wrapper.cc:595-628 | the resolved action carries the decoded move; its ability is ABILITY_SKIP exactly when no useful action exists after the move, and otherwise it is a useful action of greatest speculative value with every earlier one strictly worse |
| NichessWrapper.ComputePositionValue | src/nichess_wrapper.cc:568-589 | the two roster loops and the sign compute PositionValue |
| NichessWrapper.DecodeMove | src/nichess_wrapper.cc:596-604 | the skip index decodes to (MOVE_SKIP, MOVE_SKIP); any other index is read from the cache's table, which holds DecodedMove |
| NichessWrapper.GameWrapper.constructor | src/nichess_wrapper.cc:135-143 | a wrapper holds the given game and shares the agent's tables |
| NichessWrapper.GameWrapper.Copy | src/nichess_wrapper.cc:145-153 | the copy has its own game equal to the original's and shares the same tables |
| NichessWrapper.GameWrapper.UsefulLegalActionsWithoutMoves | src/nichess_wrapper.cc:166-481 | the result is UsefulActions of the current game, whose members UsefulActionsMembers characterises |
| NichessWrapper.GameWrapper.LegalMovesByPiece | src/nichess_wrapper.cc:486-511 | the result is the piece's empty-board moves that the filter keeps, in table order |
| NichessWrapper.GameWrapper.StillLegal | src/nichess_wrapper.cc:490-508 | a move stays legal exactly when its destination is empty and it is not a pawn's two-row advance over an occupied square |
| NichessWrapper.GameWrapper.SetMoveBits | src/nichess_wrapper.cc:521-525 | the bit of each move's index is set through the encoder, other bits are unchanged, and the found flag is raised iff some move was seen |
| NichessWrapper.GameWrapper.ComputeValids | src/nichess_wrapper.cc:513-536 | the result is exactly ValidsMask, whose meaning MaskMeaning gives |
| NichessWrapper.GameWrapper.TryAbility | src/nichess_wrapper.cc:617-623 | one probe returns the speculative value of the ability and leaves the game as it was |
| NichessWrapper.GameWrapper.BestAbility | src/nichess_wrapper.cc:611-624 | the search returns the ability of the first action of greatest value, or ABILITY_SKIP, and leaves the game as it was |
| NichessWrapper.GameWrapper.ResolveAction | src/nichess_wrapper.cc:596-627 | move, search, undo: the game ends as it started, and the action is ResolvedAction |
| NichessWrapper.GameWrapper.MakeAction | src/nichess_wrapper.cc:595-629 | the new game is one combined make of the decoded move and the greedy ability, applied to the game before the turn |
| NichessWrapper.GameWrapper.MoveToPlayerAction | src/nichess_wrapper.cc:635-674 | the game is unchanged, and the result is "ms.md.as.ad" of the resolved action |
| Text.NatToString | src/nichess_wrapper.cc:669-672 | the digits are nonempty, all decimal, and have no leading zero |
| Text.IntToString | src/nichess_wrapper.cc:669-672 | the string is nonempty digits with an optional leading minus and contains no dot |
| Text.DigitsRoundTrip | src/nichess_wrapper.cc:669-672 | reading the digits of n gives n |
| Text.IntRoundTrip | src/nichess_wrapper.cc:669-672 | parsing the decimal form of an integer gives it back |
| Text.FormatSplits | src/nichess_wrapper.cc:668-673 | the action string cuts at its dots into the four integers' strings |
| Text.FieldsRoundTrip | src/nichess_wrapper.cc:668-673 | the action string is unambiguous: parsing it gives back the four integers |
| NichessState.CanonicalIndexBijective | src/nichess_gs.cc:64-89 | the ten piece types map one to one onto channels 0..9, player 1's types onto 0..4, and anything else to 1000 |
| NichessState.CanonicalIndexOnto | src/nichess_gs.cc:64-89 | every channel 0..9 belongs to some piece type |
| NichessState.MaxHealthPointsSymmetric | src/nichess_gs.cc:91-116 | each player 1 type has the same maximum health as its player 2 counterpart; the maximum is positive for pieces and 0 otherwise |
| NichessState.SquaresEqualFromMeans | src/nichess_gs.cc:17-21 | the square-by-square loop succeeds exactly when the remaining boards are equal |
| NichessState.StateEqualsMeans | src/nichess_gs.cc:11-24 | two states are equal iff the boards, the side to move and the move number all agree; rosters are not compared |
| NichessState.HashFeed | src/nichess_gs.cc:26-34 | the hash combines 65 values: each square's type, health and square index, then the side to move |
| NichessState.EqualStatesHashAlike | src/nichess_gs.cc:11-34 | equal states feed the hash the same values |
| NichessState.HashFeedDetermines | src/nichess_gs.cc:26-34 | the hash inputs agree iff the boards and the side to move agree; the move number is not hashed |
| NichessState.ScoresOf | src/nichess_gs.cc:45-62 | scores are absent iff there is no winner and the move number is not exactly 200; otherwise they are a one-hot vector of three, and a winner takes precedence over the draw slot |
| NichessState.CanonicalCell | src/nichess_gs.cc:118-142 | on an empty square the only channel reading 1.0 is the turn channel of the side to move, and every other channel reads 0 |
| NichessState.PresenceChannels | src/nichess_gs.cc:132-136 | in channels 0..9, an occupied square has exactly its piece's channel set to 1, and an empty square has none |
| NichessState.TurnChannelCollides | src/nichess_gs.cc:121-138 | with player 1 to move, the turn flag and player 2's assassin health share channel 19; the health overwrites the flag; channel 21 is always 0 |
| NichessState.AsWrittenHealthChannelDirty | src/nichess_gs.cc:121-138 | on an empty board with player 1 to move, player 2's assassin health channel reads 1 on a square without a piece |
| NichessState.IntendedChannelsSeparate | src/nichess_constants.h:14-17 | with turn channels 20 and 21, a health channel is nonzero only under a piece of its type, and the side to move's turn channel is 1 everywhere while the other's is 0 |
| NichessState.Symmetries | src/nichess_gs.cc:144-148 | the symmetry list holds NUM_SYMMETRIES entries, each the base unchanged |
| NichessState.NichessGS.constructor | src/nichess_gs.cc:5-9 | the state wraps the given game wrapper |
| NichessState.NichessGS.Copy | src/nichess_gs.cc:5-9 | the copy is a new state around a new wrapper, with a game equal to the original's and the same tables |
| NichessState.NichessGS.Equals | src/nichess_gs.cc:11-24 | never equal to a state that is not a Nichess state (null); otherwise equal exactly when the boards, the side to move and the move number agree |
| NichessState.NichessGS.ValidMoves | src/nichess_gs.cc:36-39 | valid moves are exactly the wrapper's mask |
| NichessState.NichessGS.PlayMove | src/nichess_gs.cc:41-43 | playing a move performs exactly the wrapper's makeAction |
| NichessState.NichessGS.MoveToPlayerAction | src/nichess_gs.cc:155-158 | the wrapper's action string, with the game unchanged |
| NichessState.NichessGS.Scores | src/nichess_gs.cc:45-62 | the score vector is ScoresOf the library's winner and the move number |
| NichessState.NichessGS.Canonicalized | src/nichess_gs.cc:118-142 | a fresh 22x8x8 tensor whose every cell is CanonicalCell of the game |
| NichessState.WriteSquare | src/nichess_gs.cc:127-138 | one square's writes (turn flag, then presence, then health) give that square's cells and touch no other square |
| Brandubh.ConstantsLayout | src/brandubh_gs.h:40-48 | NUM_MOVES is 7*7*(7+7) = 686, and a board tensor has 3*7*7 = 147 cells |
| Brandubh.CellIndex | src/brandubh_gs.h:50-52 | each (layer, row, column) has a storage position within the tensor |
| Brandubh.CellIndexBijective | src/brandubh_gs.h:50-52 | distinct cells have distinct storage positions |
| Brandubh.RepetitionKey.constructor | src/brandubh_gs.h:58-63 | a key stores the given tensor and player |
| Brandubh.RepetitionKeyWrapper.constructor | src/brandubh_gs.h:65-67 | a wrapper built from a tensor owns a new key holding it |
| Brandubh.RepetitionKeyWrapper.Copy | src/brandubh_gs.h:68 | copying a wrapper shares the same key object instead of copying the tensor |
| Brandubh.CellsEqualFromMeans | src/brandubh_gs.h:79-87 | the cell-by-cell loop succeeds exactly when the remaining cells are equal |
| Brandubh.KeysEqual | src/brandubh_gs.h:77-89 | two wrappers sharing one key always compare equal |
| Brandubh.KeysEqualMeans | src/brandubh_gs.h:77-89 | key equality holds iff the tensors and the players are equal, whether or not the key objects are shared |
| Brandubh.HashFeed | src/brandubh_gs.h:71-76 | the hash combines the 147 cells, then the player |
| Brandubh.HashMatchesEquality | src/brandubh_gs.h:71-89 | keys are equal exactly when their hash inputs are equal |
| Brandubh.KeyHeap.constructor | src/brandubh_gs.h:69 | no keys are owned yet |
| Brandubh.KeyHeap.NewWrapper | src/brandubh_gs.h:65-67 | a new key with exactly one owner |
| Brandubh.KeyHeap.CopyWrapper | src/brandubh_gs.h:68 | the copy shares the key, and its use count grows by one |
| Brandubh.KeyHeap.Release | src/brandubh_gs.h:69 | destroying a wrapper lowers its key's use count by one |
| Brandubh.Pruned | src/brandubh_gs.h:127-137 | the pruned pool is a subset of the pool |
| Brandubh.PrunedMembers | src/brandubh_gs.h:127-137 | pruning adds nothing, keeps every entry with another owner, and removes every entry whose use count is 1 |
| Brandubh.PruneIdempotent | src/brandubh_gs.h:127-137 | with unchanged counts, pruning twice is pruning once |
| Brandubh.InternPool.constructor | src/brandubh_gs.h:211-212 | a new pool is empty and valid |
| Brandubh.InternPool.Prune | src/brandubh_gs.h:128-137 | erasing while iterating leaves exactly the old pool minus its entries of use count 1, and the pool stays valid |
| Brandubh.MovedBack | src/brandubh_gs.h:44 | each of the eight board symmetries stays on the board and is undone by its inverse |
| Brandubh.InitialLayoutShape | src/brandubh_gs.h:93-113 | the start has 13 pieces on 13 distinct squares, and each symmetry maps a starting piece to a starting piece |
| Brandubh.InitialLayoutSymmetric | src/brandubh_gs.h:44 | a placement is in the start iff its image under any of the eight symmetries is |
| Brandubh.RuleStartRanks | src/brandubh_gs.h:25 | the starti field splits into an empty head, the seven ranks and an empty tail |
| Brandubh.ExpandedStartRanks | src/brandubh_gs.h:25 | the start field's ranks expand to "...t...", "...T..." and "ttTKTtt" |
| Brandubh.InitialPiecesAt | src/brandubh_gs.h:95-112 | the thirteen placements are the king at the centre, the defender cross around it, and the attacker arms |
| Brandubh.StartSquare | src/brandubh_gs.h:25 | reading the expanded start field at a square gives the king, defender cross or attacker arm layer |
| Brandubh.InitialMatchesRuleString | src/brandubh_gs.h:93-113 | the default constructor places a piece exactly where the starti field of the rule string (line 25) does |
| Brandubh.BrandubhGS.constructor | src/brandubh_gs.h:93-113 | a fresh zeroed board with exactly the thirteen starting pieces; turn 0, attackers to move, repetition count 1, no counts and no pool; the turn limit is the caller's, 150 (DEFAULT_MAX_TURNS, src/brandubh_gs.h:29) by default |
| Brandubh.BrandubhGS.Restore | src/brandubh_gs.h:114-138 | every field is stored as given, and a non-null pool is pruned of exactly its singly-owned entries |
| Brandubh.SetCell | src/brandubh_gs.h:96-112 | a cell write changes that cell alone |
| Brandubh.LayoutCell | src/brandubh_gs.h:94-112 | a cell of the start tensor is 1 exactly when one of the thirteen writes targets it |
| Brandubh.StartWritesLayout | src/brandubh_gs.h:94-112 | the thirteen writes, in order, produce the start layout |
| Brandubh.StartWritesCell | src/brandubh_gs.h:94-112 | after the writes, each cell is 1 iff it was written |

## Left out

- The nichess library (`Game`, `GameCache`, `makeMove`/`undoMove`/`makeAction`/`undoAction`, `winner`, `getAllPiecesByPlayer`, `isOffBoard`) is foreign code and not part of this model. It is the `Engine` parameter. Its undo routines are assumed to invert its makes (`Inverts`), and its empty-board moves are assumed to follow the slot template (`MovesFollowTemplate`, used only by `MaskBitDecodesToLegalMove`).
- The library constants are fixed at assumed values: MOVE_SKIP = ABILITY_SKIP = -1, KING_PIECE_INDEX = 0, PLAYER_1 = 0, PLAYER_2 = 1, NUM_ROWS = NUM_COLUMNS = 8, and `coordinatesToBoardIndex(x, y) = y*8 + x`.
- NichessGame.Other: the library's `~` on players (used at src/nichess_wrapper.cc:617 and 657) is not part of this model. It is assumed to swap player 1 and player 2.
- NichessGame.Game: the library does not promise that its games are well-formed. The subset type assumes it of every game the library returns.
- `getAllPiecesByPlayer` is taken to return the player's roster, dead pieces included. `Piece::operator!=` is taken to compare type, health and square.
- NichessWrapper.GameWrapper.UsefulLegalActionsWithoutMoves: iterates over the whole roster rather than the library's NUM_STARTING_PIECES count. These agree when the roster holds the starting pieces, which the library's definition would have to state.
- The GameWrapper constructors build the game from a `GameCache` or an encoded board string inside the library. Here the resulting game is a parameter.
- NichessRules.PositionValue: `float` arithmetic is modelled with `int`. Every product is an integer far below 2^24, so it is exact.
- NichessWrapper.GameWrapper.BestAbility: the `-FLT_MAX` starting value is modelled as "no value yet" (`None`). This differs only if a position value could equal `-FLT_MAX`, which no integer value of this range does.
- NichessState.CanonicalCell: the health channels are `real` divisions. The model claims nothing about `float` rounding.
- NichessState.NichessGS.Canonicalized: models the turn channel as written (`19 + currentPlayer`). The intended layout is stated separately (see Findings), because this method is the source's behaviour.
- NichessState.NichessGS.Equals: a `dynamic_cast` failure (the other state is not a Nichess state) is modelled as a null argument.
- The absl hash mixing (`combine`, `combine_contiguous`) is foreign. Only the sequence of values fed to it (`HashFeed`) is modelled.
- Integer widths are not modelled: uint32 move, uint8 mask and repetition counts, uint16 turns, int8 cells and player. Every value the modelled code produces is within range.
- The Brandubh board tensor is a flat sequence of 147 cells. Eigen's storage order is abstracted by `CellIndex`.
- Brandubh.BrandubhGS.Restore: `shared_ptr` use counts are an explicit `KeyHeap` map that pruning reads. The decrease of an erased key's count when the pool drops its reference is not applied to the map.
- Brandubh move generation, `play_move`, repetition counting, `scores`, `canonicalized`, `symmetries`, `copy`, `operator==` on states, `hash`, `dump` and `minimize_storage` are declared in `src/brandubh_gs.h` but defined in a source file that is not part of this model.
- `dump()`, destructors, `new`/`delete` memory management and the Python bindings have no behaviour worth modelling.
- `src/nichess_wrapper.h` holds declarations only. Its field shapes are used for `AgentCache` and `GameWrapper`.
- NichessWrapper.GameWrapper.LegalMovesByPiece: the loop body is the method `StillLegal`, whose three `continue` tests become early `return false`s.

## Findings

| source | as written | input that shows it | evidently intended | confidence | as-written member | corrected member |
|---|---|---|---|---|---|---|
| src/nichess_gs.cc:121-138 | the turn flag goes to channel `19 + currentPlayer`, but player 2's assassin health also lives in channel 9 + 10 = 19; channel 21 is never written | player 1 (value 0) to move on an empty board: channel 19 reads 1.0 on every square, as if a full-health player 2 assassin stood everywhere; a player 2 assassin at 55/110 health shows 0.5 there and no turn flag | the two turn channels are 20 and 21, after the twenty piece channels (`10 * 2 + 2` in src/nichess_constants.h:14-17) | high; not executed | NichessState.AsWrittenHealthChannelDirty | NichessState.IntendedChannelsSeparate |
