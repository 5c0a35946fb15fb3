/** Short matches played from the start on the default map, each pinning
    down what the commands leave behind for one concrete line of play. The
    dice are parameters fixed by the preconditions. */
module Scenarios {
  import opened Board
  import opened Combat
  import opened Engine

  /** A new game in which player 0 has spent the three reinforcements on
      territory 0: it holds six armies, every other territory still three,
      and the budget is used up. */
  method Reinforced() returns (g: Game)
    ensures fresh(g) && g.Valid() && !g.gameOver && g.phase == Reinforce
    ensures g.currentPlayer == 0 && g.reinforcementsLeft == 0
    ensures g.attackSel == Unset && g.fortSel == Unset && !g.fortifyDone
    ensures |g.terrs| == DefaultSize
    ensures forall i :: 0 <= i < |g.terrs| ==>
              && g.terrs[i].owner == InitialOwner(i)
              && g.terrs[i].neighbors == DefaultNeighbors()[i]
              && g.terrs[i].armies == (if i == 0 then 6 else InitialArmies)
  {
    g := new Game();
    g.PlaceReinforcement(0);
    g.PlaceReinforcement(0);
    g.PlaceReinforcement(0);
  }

  /** Player 0 spends the three reinforcements on territory 0 and the turn
      is walked through its three phases: player 1 is then to reinforce
      with a fresh budget of three, and territory 0 keeps its six armies. */
  method TurnCycle() returns (player: int, phase: Phase, left: int, armies0: int)
    ensures player == 1 && phase == Reinforce && left == 3 && armies0 == 6
  {
    var g := Reinforced();
    g.NextPhase();
    g.NextPhase();
    g.NextPhase();
    player, phase, left, armies0 := g.currentPlayer, g.phase, g.reinforcementsLeft, g.terrs[0].armies;
  }

  /** A new game with player 0's three reinforcements on territory 0, in the
      Attack phase with territory 0 chosen as the attack source. */
  method ReadyToAttack() returns (g: Game)
    ensures fresh(g) && g.Valid() && !g.gameOver && g.phase == Attack
    ensures g.currentPlayer == 0 && g.attackSel == Selection(0, NoTerritory)
    ensures |g.terrs| == DefaultSize
    ensures forall i :: 0 <= i < |g.terrs| ==> g.terrs[i].owner == InitialOwner(i)
    ensures g.terrs[0].armies == 6 && g.terrs[1].armies == 3 && g.terrs[0].neighbors == [1, 2]
  {
    g := Reinforced();
    g.NextPhase();
    var ok := g.SelectAttackFrom(0);
    assert ok;
  }

  /** Territory 0, reinforced to six armies, attacks territory 1 (three
      armies) with the dice 6, 6, 6 against 1, 1: the defender loses both
      pairs and keeps one army, the attacker keeps all six, no territory
      changes hands and territory 0 stays chosen as the source. */
  method SweepAttack(sweep: seq<Die>) returns (g: Game)
    requires sweep == [6, 6, 6, 1, 1]
    ensures fresh(g) && g.Valid() && !g.gameOver && g.phase == Attack
    ensures g.currentPlayer == 0 && g.attackSel == Selection(0, NoTerritory)
    ensures |g.terrs| == DefaultSize
    ensures forall i :: 0 <= i < |g.terrs| ==> g.terrs[i].owner == InitialOwner(i)
    ensures g.terrs[0].armies == 6 && g.terrs[1].armies == 1 && g.terrs[0].neighbors == [1, 2]
  {
    g := ReadyToAttack();
    SweepFight(sweep);
    var ok := g.SelectAttackTo(1, sweep);
    assert ok;
    AlternatingCounts(g.terrs);
  }

  /** After that sweep, a second attack with 5, 4, 3 against 2 takes the last
      army: territory 1 passes to player 0 with one army, and one army is
      taken from territory 0. Nobody has won. */
  method AttackAndCapture(sweep: seq<Die>, finish: seq<Die>)
      returns (owner1: int, armies0: int, armies1: int, over: bool)
    requires sweep == [6, 6, 6, 1, 1] && finish == [5, 4, 3, 2, 1]
    ensures owner1 == 0 && armies0 == 5 && armies1 == 1
    ensures !over
  {
    var g := SweepAttack(sweep);
    CaptureFight(finish);
    var ok := g.SelectAttackTo(1, finish);
    assert ok;
    CapturedBoardHasNoWinner(g.terrs);
    owner1, armies0, armies1, over := g.terrs[1].owner, g.terrs[0].armies, g.terrs[1].armies, g.gameOver;
  }

  /** Territory 0 with six armies attacks territory 1 with three, and every
      die shows 3: both pairs are ties, so the attacker loses two armies and
      the defender none. */
  method AttackTie(dice: seq<Die>) returns (armies0: int, armies1: int, owner1: int)
    requires dice == [3, 3, 3, 3, 3]
    ensures armies0 == 4 && armies1 == 3 && owner1 == 1
  {
    var g := ReadyToAttack();
    TieFight(dice);
    var ok := g.SelectAttackTo(1, dice);
    assert ok;
    armies0, armies1, owner1 := g.terrs[0].armies, g.terrs[1].armies, g.terrs[1].owner;
  }

  /** Player 0 reinforces territory 0 to six armies, skips the attack and
      moves one army from territory 0 to its own neighbour 2. */
  method Fortified() returns (g: Game, moved: bool)
    ensures fresh(g) && g.Valid() && !g.gameOver && g.phase == Fortify
    ensures |g.terrs| == DefaultSize
    ensures moved && g.fortifyDone
    ensures g.terrs[0].armies == 5 && g.terrs[2].armies == 4
  {
    g := Reinforced();
    g.NextPhase();
    g.NextPhase();
    var ok := g.SelectFortifyFrom(0);
    assert ok;
    moved := g.SelectFortifyTo(2);
  }

  /** After that move both fortify commands are rejected for the rest of the
      turn and change nothing. */
  method FortifyOnce() returns (moved: bool, againFrom: bool, againTo: bool, armies0: int, armies2: int)
    ensures moved && !againFrom && !againTo
    ensures armies0 == 5 && armies2 == 4
  {
    var g;
    g, moved := Fortified();
    againFrom := g.SelectFortifyFrom(0);
    againTo := g.SelectFortifyTo(2);
    armies0, armies2 := g.terrs[0].armies, g.terrs[2].armies;
  }

  /** Six armies rolling 6, 6, 6 against three rolling 1, 1: both pairs go to
      the attacker. */
  lemma SweepFight(dice: seq<Die>)
    requires dice == [6, 6, 6, 1, 1]
    ensures Fight(6, 3, AttackerRolls(6, 3, dice), DefenderRolls(6, 3, dice)) == Battle(6, 1, false)
  {
    SortedDiceStay(6, 3, dice);
    assert Wins(dice[..3], dice[3..5], 2) == 2;
  }

  /** Six armies rolling 5, 4, 3 against one rolling 2: capture. */
  lemma CaptureFight(dice: seq<Die>)
    requires dice == [5, 4, 3, 2, 1]
    ensures Fight(6, 1, AttackerRolls(6, 1, dice), DefenderRolls(6, 1, dice)) == Battle(5, 1, true)
  {
  }

  /** Six armies against three with every die showing 3: two ties. */
  lemma TieFight(dice: seq<Die>)
    requires dice == [3, 3, 3, 3, 3]
    ensures Fight(6, 3, AttackerRolls(6, 3, dice), DefenderRolls(6, 3, dice)) == Battle(4, 3, false)
  {
    SortedDiceStay(6, 3, dice);
    TiesGoToDefender(dice[..3], dice[3..5], 2);
  }

  /** The default owners with territory 1 passed to player 0 give player 0
      eight territories and player 1 six, short of the eleven that win. */
  lemma CapturedBoardHasNoWinner(ts: seq<Territory>)
    requires |ts| == DefaultSize && ts[1].owner == 0
    requires forall i :: 0 <= i < |ts| && i != 1 ==> ts[i].owner == InitialOwner(i)
    ensures Count(ts, 0) == 8 && Count(ts, 1) == 6
    ensures WinnerOf(ts) == NoOwner
  {
    var m := DefaultMap();
    DefaultMapFacts();
    CountUpdate(m, 1, ts[1], 0);
    CountUpdate(m, 1, ts[1], 1);
    SameOwnersSameCount(ts, m[1 := ts[1]], 0);
    SameOwnersSameCount(ts, m[1 := ts[1]], 1);
  }
}
