# Two-player world domination: the match engine

A Dafny model of the rules engine of a two-player, Risk-like conquest game:
the `Game` class of `game.h` / `game.cpp`. The board is a fixed list of
territories. Each territory has an owner (player 0, player 1 or nobody), an
army count and a directed list of neighbours. A turn runs through three
phases:

- **Reinforce.** The current player places three extra armies, one at a
  time, on territories they own.
- **Attack.** The player picks one of their own territories with at least
  two armies and a neighbouring territory that is not their own. The attack is
  resolved at once with dice: up to three attacker dice and up to two
  defender dice, each side sorted highest first, compared pair by pair, ties
  going to the defender. A defender with no army left is captured.
- **Fortify.** Once per turn, the player moves one army from one of their
  territories to a neighbouring territory they also own.

A player wins on holding all but three territories.

The model has four modules:

- `Board` (board.dfy): territories, the ownership and adjacency queries,
  owner counts and the win test, army totals, the one-army move and the
  default fourteen-territory map.
- `Combat` (combat.dfy): the dice counts, the descending sort, the pairwise
  comparison, the outcome of one attack (`Fight`) and the board it leaves
  (`AfterBattle`).
- `Engine` (engine.dfy): the class `Game`. Its fields are the game state of
  `game.h`, and its methods are the commands of `game.cpp`. They update the
  fields in place and keep the invariant `Valid()`:
  - the board is well formed: owners in -1..1, armies never negative, an
    owned territory has at least one army, and neighbour indices lie on the
    board;
  - `winner` is the winner of the board, and `gameOver` holds exactly when
    there is one;
  - the selections are unset (-1) or territory indices, and a chosen attack
    or fortify source belongs to the current player;
  - the reinforcement budget is between 0 and 3, and is 0 outside Reinforce.
- `Scenarios` (scenarios.dfy): short lines of play from a new game, with the
  states they reach stated and proved.

The dice are a parameter (`dice: seq<Die>`, each value in 1..6). The
attacker's dice are its first values and the defender's dice the next ones,
the order in which the two roll loops of `resolveAttack` call `rollDie`. Each
command's preconditions are the calling discipline of the click and key
handlers in `risk.cpp`:

- a territory index on the board;
- the command's own phase;
- a match not yet over.

`nextPhase` is called from the key handler without the game-over test, so
`NextPhase` does not require it. The two commands that are only ever called
from the selection commands take the facts those callers establish:
`ResolveAttack` needs the attack phase, and `DoFortifyMove` needs the fortify
phase with no fortify made yet this turn.

Once a player has won, the winner never changes. Every command but
`NextPhase` requires a match not yet over, and `NextPhase` leaves the board,
`gameOver` and `winner` as they were.

Adjacency is the directed lookup in the neighbour list, as `isAdjacent` does
it (game.cpp:271-274). The comments beside the neighbour table
(game.cpp:231-253) write each entry with `<->`, which suggests the relation is
symmetric, but the lists themselves are not: territory 12 lists territory 1,
and territory 1 does not list 12 (`DefaultAdjacencyAsymmetric`). The model
follows the lists.

`checkWin` compares each player's count with exactly `size - 3`, testing
player 0 first. `ThresholdDeclaresWinner` shows that on a board of more than
six territories, the order of the two tests never matters.

## Model

| member | source | states |
|---|---|---|
| Board.IsOwner | game.cpp:267-269 | a territory `player` owns counts towards that player's holdings, so the count is at least one |
| Board.OwnedIsCounted | game.cpp:307-312 | whoever owns a territory is counted at least once by the counting loop |
| Board.OwnedHasArmy | game.h:8-14 | on a well-formed board, a territory owned by a player holds at least one army |
| Board.InList | game.cpp:271-274 | the scan of a neighbour list finds `b` exactly when `b` occurs in the list |
| Board.IsAdjacent | game.cpp:271-274 | `a` is adjacent to `b` exactly when `b` is in the neighbour list of `a` (directed) |
| Board.Count | game.cpp:307-312 | a player's territory count never exceeds the number of territories |
| Board.CountsFitBoard | game.cpp:307-312 | the two players' counts together never exceed the number of territories |
| Board.SameOwnersSameCount | game.cpp:307-312 | the counts depend on the owners alone, not on armies or neighbours |
| Board.SameOwnersSameWinner | game.cpp:306-321 | so the outcome of the win check depends on the owners alone |
| Board.CountUpdate | game.cpp:309-312 | changing one territory changes a player's count by exactly its change of owner |
| Board.WinnerOf | game.cpp:313-320 | the declared winner is NoOwner or a player; a declared winner holds exactly size - 3 territories; there is no winner exactly when neither player holds size - 3 |
| Board.WinnerLeavesAtMostThree | game.cpp:313-320 | when a winner is declared, the opponent holds at most three territories |
| Board.ThresholdDeclaresWinner | game.cpp:313-320 | on a board of more than six territories, whichever player holds size - 3 territories is declared the winner |
| Board.TotalUpdate | game.cpp:328-331 | replacing one territory changes the army total by exactly that territory's change in armies |
| Board.MoveOne | game.cpp:432-433 | the board after the fortify move has the same size and every territory other than the two involved is unchanged |
| Board.MoveOneConserves | game.cpp:428-436 | the fortify move keeps the army total, every owner and every neighbour list; with distinct territories the source loses one army and the target gains one |
| Board.MoveOneWellFormed | game.cpp:411-436 | the fortify move keeps the board well formed when the source has at least two armies |
| Board.AlternatingCounts | game.cpp:259-262 | owners alternating by parity from index 0 give player 0 ceil(n/2) territories and player 1 floor(n/2) |
| Board.UniformTotal | game.cpp:259-262 | a board with `k` armies on every territory holds `k` times its size |
| Board.DefaultMapFacts | game.cpp:229-262 | the default map has 14 territories, is well formed, gives each player 7 territories, has no winner and holds 42 armies |
| Board.DefaultAdjacencyAsymmetric | game.cpp:231-253 | on the default map 12 is adjacent to 1, but 1 is not adjacent to 12 |
| Combat.Pairs | game.cpp:361-379 | an attack that gets past the dice-count guards compares one or two pairs, never more than the attacker's armies minus one or the defender's armies |
| Combat.Insert | game.cpp:376-377 | inserting a roll into a descending list gives a descending list with that roll added |
| Combat.SortDesc | game.cpp:376-377 | the sorted rolls are in descending order and are a permutation of the rolls |
| Combat.SortDescKeepsSorted | game.cpp:376-377 | rolls already in descending order are left as they are |
| Combat.SortedHeadIsHighest | game.cpp:376-381 | the first compared roll of a side is its highest roll |
| Combat.Wins | game.cpp:379-390 | the attacker wins between none and all of the compared pairs |
| Combat.WinsCountsStrictPairs | game.cpp:380-383 | the pairs the attacker wins are exactly those where its die is strictly higher |
| Combat.TiesGoToDefender | game.cpp:380-387 | when no attacker die is strictly higher than its defender die, the attacker wins no pair |
| Combat.HigherRollsWinEveryPair | game.cpp:380-384 | when every attacker die is strictly higher, the attacker wins every pair |
| Combat.Fight | game.cpp:361-403 | both sides keep at least one army; each compared pair costs exactly one army; capture happens exactly when the attacker wins as many pairs as the defender has armies, and then the defender holds exactly one army; otherwise the defender loses one army per pair lost |
| Combat.CaptureExample | game.cpp:379-403 | two armies rolling 6 against one rolling 1 capture, leaving one army on each side |
| Combat.TieExample | game.cpp:379-390 | two armies rolling 3 against one rolling 3 lose the tie and do not capture |
| Combat.SortedDiceStay | game.cpp:371-377 | dice that arrive in descending order on both sides are compared as rolled |
| Combat.AfterBattle | game.cpp:379-403 | the board after an attack has the same size and every territory other than the attacker and the defender is unchanged |
| Combat.AfterBattleIs | game.cpp:379-403 | a board that matches the outcome on the two territories and equals the old board elsewhere is the board after the attack |
| Combat.AfterBattleFacts | game.cpp:379-403 | on the two territories involved: both keep at least one army; the attacker's owner and neighbours stay; the defender changes owner exactly on capture, to the attacker's owner; the board loses exactly one army per compared pair |
| Combat.AfterBattleWellFormed | game.cpp:379-403 | an attack keeps a well-formed board well formed |
| Engine.TurnIsCycle | game.cpp:280-298 | the successor phase follows the order of the enum values, and three steps return to the start; NextPhase moves to exactly this successor whenever it moves |
| Engine.PhaseName | game.cpp:438-445 | every phase has a non-empty label, never the `"???"` fallback |
| Engine.PhaseNamesDistinct | game.cpp:438-445 | the three phase labels are non-empty and distinct |
| Engine.RollDice | game.cpp:371-374 | the attacker's rolls are the first `aDice` dice and the defender's rolls the next `dDice` |
| Engine.Game.constructor | game.cpp:7-18 | a new match is on the default map, with player 0 to reinforce with 3 armies, no winner, both selections unset and no fortify made |
| Engine.Game.InitSimpleMap | game.cpp:229-262 | the board built is the default map: the neighbour table, 3 armies each, owners alternating by parity |
| Engine.Game.OwnedTerritoriesHoldArmies | game.h:8-14 | under the invariant every command keeps, every owned territory holds at least one army |
| Engine.Game.NextPhase | game.cpp:280-300 | in Reinforce with budget left, nothing changes; otherwise the phase becomes the Successor of the old one, and Reinforce goes to Attack and clears the attack selection, Attack goes to Fortify and clears the fortify state, and Fortify passes the turn with a budget of 3 and everything cleared; the board and the win state never change |
| Engine.Game.EndTurnIfNeeded | game.cpp:302-304 | runs the win check, with the result CheckWin states |
| Engine.Game.CheckWin | game.cpp:306-321 | when the board has a winner, gameOver is set and winner is that player (0 tested first); otherwise both are left as they were, so gameOver is never cleared |
| Engine.Game.CanPlaceReinforcement | game.cpp:324-327 | under the invariant, a placement is possible only in the Reinforce phase and on a territory that holds an army |
| Engine.Game.PlaceReinforcement | game.cpp:324-336 | succeeds exactly when budget is left and the current player owns the territory; then that territory gains one army, the total rises by one and the budget falls by one; otherwise nothing changes |
| Engine.Game.SelectAttackFrom | game.cpp:339-346 | accepted exactly when the current player owns the territory and it has at least two armies; then the source is set and the target cleared; otherwise nothing changes |
| Engine.Game.SelectAttackTo | game.cpp:347-354 | accepted exactly when a source is set, the target is in its neighbour list and is not the current player's; then the attack is resolved at once; otherwise nothing changes |
| Engine.Game.ResolveAttack | game.cpp:356-408 | without both territories chosen, or with fewer than one die on either side, nothing changes; otherwise the board becomes the one AfterBattle describes, the win check has run, and the target is cleared while the source is kept |
| Engine.Game.FinishAttack | game.cpp:370-407 | once both dice counts are at least one: the board becomes AfterBattle of the old one, the win check has run, the target is cleared while the source stays, and the invariant holds |
| Engine.Game.Battle | game.cpp:370-403 | rolling, sorting, comparing and capturing leave exactly the board AfterBattle describes |
| Engine.Game.ComparePairs | game.cpp:379-390 | the pair loop, early stops included, leaves the attacker minus the pairs it lost and the defender minus the pairs it lost, as if every pair were compared, and changes no other territory |
| Engine.Game.SelectFortifyFrom | game.cpp:411-418 | accepted exactly when no fortify was made this turn, the current player owns the territory and it has at least two armies; then the source is set and the target cleared; otherwise nothing changes |
| Engine.Game.SelectFortifyTo | game.cpp:419-427 | accepted exactly when no fortify was made this turn, a source is set, the current player owns the target and it is in the source's neighbour list; then one army moves, the total is unchanged and the turn's fortify is spent; otherwise nothing changes |
| Engine.Game.DoFortifyMove | game.cpp:428-436 | with both territories chosen, one army moves from the source to the target and the fortify is spent; otherwise nothing changes |
| Scenarios.Reinforced | game.cpp:324-336 | three reinforcements on territory 0 of a new match leave it with six armies and no budget |
| Scenarios.TurnCycle | game.cpp:280-300 | after the three reinforcements and three phase changes, player 1 is to reinforce with a budget of 3 |
| Scenarios.ReadyToAttack | game.cpp:339-346 | territory 0 with six armies is accepted as attack source after entering Attack |
| Scenarios.SweepAttack | game.cpp:347-408 | six armies rolling 6, 6, 6 against three rolling 1, 1 leave 6 and 1 armies, with no change of owner |
| Scenarios.AttackAndCapture | game.cpp:393-403 | a second attack rolling 5, 4, 3 against 2 captures territory 1 for player 0 with one army, leaving five on territory 0, and nobody has won |
| Scenarios.AttackTie | game.cpp:379-390 | six armies against three with every die showing 3 leave 4 and 3 armies and the defender keeps the territory |
| Scenarios.Fortified | game.cpp:411-436 | a fortify move from territory 0 to territory 2 leaves them with 5 and 4 armies |
| Scenarios.FortifyOnce | game.cpp:411-427 | after that move, both fortify commands are rejected for the rest of the turn |
| Scenarios.SweepFight | game.cpp:379-390 | the outcome of 6, 6, 6 against 1, 1 with six against three armies |
| Scenarios.CaptureFight | game.cpp:379-403 | the outcome of 5, 4, 3 against 2 with six against one army is a capture |
| Scenarios.TieFight | game.cpp:379-390 | the outcome of two tied pairs with six against three armies |
| Scenarios.CapturedBoardHasNoWinner | game.cpp:306-321 | the default owners with territory 1 taken by player 0 give counts 8 and 6 and no winner |

## Left out

- Map geometry, colours and label positions of `initSimpleMap`: float presentation data with no rule content.
- The animation flags and timers (`capturing`, `animT`, `reinforcing`, `reinfT`): they feed only the renderer.
- Randomness: `std::srand` seeded from the clock and `rollDie` are replaced by the `dice` parameter. Commands that may roll require at least five dice, the most one attack uses.
- All of risk.cpp (windowing, drawing, hit testing, input callbacks). Only the calling discipline of its click and key handlers is kept, as preconditions.
- The `"???"` label of `phaseName` for a value outside the enumeration: the `Phase` datatype has exactly three values, so that label is never produced.
- 32-bit overflow of `int`: the model uses unbounded integers. Armies grow by at most three per turn, so an overflow would take hundreds of millions of turns.
- Engine.Game.SelectAttackFrom: modelled only under the dispatch preconditions (index on the board, Attack phase, match not over); the C++ method checks none of them itself.
- Engine.Game.SelectAttackTo: modelled only under the same dispatch preconditions.
- Engine.Game.SelectFortifyFrom: modelled only under the dispatch preconditions for the Fortify phase.
- Engine.Game.SelectFortifyTo: modelled only under the dispatch preconditions for the Fortify phase.
- Engine.Game.PlaceReinforcement: modelled only under the dispatch preconditions for the Reinforce phase.
- Engine.Game.DoFortifyMove: modelled only as its one caller, `selectFortifyTo`, reaches it (Fortify phase, match not over, no fortify made this turn); the C++ method checks only that both territories are chosen.
