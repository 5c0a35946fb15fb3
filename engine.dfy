/** The match engine: the Reinforce -> Attack -> Fortify turn cycle, the
    reinforcement budget, the two-step attack and fortify selections, combat,
    and the win check, as a class whose fields the commands update in place. */
module Engine {
  import opened Board
  import opened Combat

  datatype Phase = Reinforce | Attack | Fortify

  /** The value of each phase in the enumeration. */
  function Ordinal(p: Phase): nat {
    match p
    case Reinforce => 0
    case Attack => 1
    case Fortify => 2
  }

  /** The phase nextPhase moves to from `p` when it moves at all. */
  function Successor(p: Phase): Phase {
    match p
    case Reinforce => Attack
    case Attack => Fortify
    case Fortify => Reinforce
  }

  /** The turn is a cycle of three phases, in the order of their values. */
  lemma TurnIsCycle(p: Phase)
    ensures Ordinal(Successor(p)) == (Ordinal(p) + 1) % 3
    ensures Successor(Successor(Successor(p))) == p
    ensures Successor(p) != p
  {
  }

  /** The label of a phase. Every phase is one of the three, so the label for
      an unknown value is never produced. */
  function PhaseName(p: Phase): (s: string)
    ensures |s| > 0 && s != "???"
  {
    match p
    case Reinforce => "Reinforce"
    case Attack => "Attack"
    case Fortify => "Fortify"
  }

  /** Distinct phases have distinct labels. */
  lemma PhaseNamesDistinct(p: Phase, q: Phase)
    ensures PhaseName(p) == PhaseName(q) <==> p == q
  {
  }

  /** The value of a selection field that holds no territory. */
  const NoTerritory := -1

  /** A pending two-step selection: source and target territory. */
  datatype Selection = Selection(fromTerr: int, toTerr: int)

  /** Both fields unset, the default of both selection structs. */
  const Unset := Selection(NoTerritory, NoTerritory)

  /** Each field is unset or a territory of a board of `n`, and a target is
      only ever chosen after a source. */
  predicate SelectionOk(s: Selection, n: int) {
    && NoTerritory <= s.fromTerr < n
    && NoTerritory <= s.toTerr < n
    && (s.toTerr >= 0 ==> s.fromTerr >= 0)
  }

  /** Reinforcements granted at the start of every turn. */
  const ReinforcementsPerTurn := 3

  /** The two roll loops of resolveAttack: the attacker's `aDice` dice are
      the first values of the die stream, the defender's `dDice` dice the next. */
  method RollDice(dice: seq<Die>, aDice: int, dDice: int) returns (aRolls: seq<int>, dRolls: seq<int>)
    requires 0 <= aDice && 0 <= dDice && aDice + dDice <= |dice|
    ensures aRolls == dice[..aDice]
    ensures dRolls == dice[aDice..aDice + dDice]
  {
    aRolls := [];
    for i := 0 to aDice
      invariant aRolls == dice[..i]
    {
      aRolls := aRolls + [dice[i]];
    }
    dRolls := [];
    for j := 0 to dDice
      invariant dRolls == dice[aDice..aDice + j]
    {
      dRolls := dRolls + [dice[aDice + j]];
    }
  }

  class Game {
    var terrs: seq<Territory>
    var currentPlayer: int
    var phase: Phase
    var reinforcementsLeft: int
    var gameOver: bool
    var winner: int
    var attackSel: Selection
    var fortSel: Selection
    var fortifyDone: bool

    /** The invariant every command keeps when called as the click and key
        handlers call it. */
    ghost predicate Valid()
      reads this
    {
      && WellFormed(terrs)
      && IsPlayer(currentPlayer)
      && 0 <= reinforcementsLeft <= ReinforcementsPerTurn
      && (phase != Reinforce ==> reinforcementsLeft == 0)
      // the win check has seen every change of owner
      && winner == WinnerOf(terrs)
      && (gameOver <==> winner != NoOwner)
      && SelectionOk(attackSel, |terrs|)
      && SelectionOk(fortSel, |terrs|)
      // a chosen attack source is the current player's; a chosen target is not
      && (attackSel.fromTerr >= 0 ==>
            phase != Reinforce && terrs[attackSel.fromTerr].owner == currentPlayer)
      && (attackSel.toTerr >= 0 ==> terrs[attackSel.toTerr].owner != currentPlayer)
      // fortify state lives only in the Fortify phase
      && (phase != Fortify ==> fortSel == Unset && !fortifyDone)
      && (fortSel.fromTerr >= 0 ==> terrs[fortSel.fromTerr].owner == currentPlayer)
      && (fortSel.fromTerr >= 0 && !fortifyDone ==>
            terrs[fortSel.fromTerr].owner == currentPlayer && terrs[fortSel.fromTerr].armies >= 2)
    }

    /** The rule that an owned territory holds at least one army is part of
        the invariant every command keeps. */
    lemma OwnedTerritoriesHoldArmies()
      requires Valid()
      ensures forall i :: 0 <= i < |terrs| && terrs[i].owner != NoOwner ==> terrs[i].armies >= 1
    {
    }

    /** A new match on the default map: player 0 to reinforce with three
        armies, nobody has won, nothing is selected. */
    constructor ()
      ensures Valid()
      ensures terrs == DefaultMap()
      ensures currentPlayer == 0 && phase == Reinforce
      ensures reinforcementsLeft == ReinforcementsPerTurn
      ensures !gameOver && winner == NoOwner
      ensures attackSel == Unset && fortSel == Unset && !fortifyDone
    {
      new;
      InitSimpleMap();
      currentPlayer := 0;
      phase := Reinforce;
      reinforcementsLeft := ReinforcementsPerTurn;
      gameOver := false;
      winner := NoOwner;
      attackSel := Unset;
      fortSel := Unset;
      fortifyDone := false;
      DefaultMapFacts();
    }

    /** Builds the default map: fourteen territories with their neighbour
        lists, then three armies each and owners alternating by parity. */
    method InitSimpleMap()
      modifies this`terrs
      ensures terrs == DefaultMap()
    {
      // fourteen value-initialised territories, then the adjacency table
      var blank := seq(DefaultSize, i requires 0 <= i < DefaultSize =>
        Territory(0, 0, DefaultNeighbors()[i]));
      terrs := blank;
      for i := 0 to |terrs|
        invariant |terrs| == DefaultSize
        invariant forall j :: 0 <= j < i ==> terrs[j] == DefaultMap()[j]
        invariant forall j :: i <= j < DefaultSize ==> terrs[j] == blank[j]
      {
        terrs := terrs[i := terrs[i].(armies := InitialArmies, owner := InitialOwner(i))];
      }
    }

    // -------------------------------------------------------------------------
    // Turn controller

    /** Advances the phase. Reinforce cannot be left while reinforcements
        remain, and trying changes nothing at all. Entering Attack clears the
        attack selection; entering Fortify clears the fortify selection and
        the fortify flag; leaving Fortify hands the turn to the other player
        with a fresh budget and everything cleared. The win check that follows
        changes nothing, because no phase change moves a territory. */
    method NextPhase()
      requires Valid()
      modifies this
      ensures Valid()
      ensures terrs == old(terrs) && gameOver == old(gameOver) && winner == old(winner)
      ensures old(phase) == Reinforce && old(reinforcementsLeft) > 0 ==> unchanged(this)
      ensures !(old(phase) == Reinforce && old(reinforcementsLeft) > 0) ==> phase == Successor(old(phase))
      ensures old(phase) == Reinforce && old(reinforcementsLeft) <= 0 ==>
                && phase == Attack && attackSel == Unset
                && currentPlayer == old(currentPlayer)
                && reinforcementsLeft == old(reinforcementsLeft)
                && fortSel == old(fortSel) && fortifyDone == old(fortifyDone)
      ensures old(phase) == Attack ==>
                && phase == Fortify && fortSel == Unset && !fortifyDone
                && currentPlayer == old(currentPlayer)
                && reinforcementsLeft == old(reinforcementsLeft)
                && attackSel == old(attackSel)
      ensures old(phase) == Fortify ==>
                && phase == Reinforce
                && currentPlayer == 1 - old(currentPlayer)
                && reinforcementsLeft == ReinforcementsPerTurn
                && attackSel == Unset && fortSel == Unset && !fortifyDone
    {
      if phase == Reinforce {
        if reinforcementsLeft > 0 {
          return;
        }
        phase := Attack;
        attackSel := Unset;
      } else if phase == Attack {
        phase := Fortify;
        fortSel := Unset;
        fortifyDone := false;
      } else {
        currentPlayer := 1 - currentPlayer;
        phase := Reinforce;
        reinforcementsLeft := ReinforcementsPerTurn;
        attackSel := Unset;
        fortSel := Unset;
        fortifyDone := false;
      }
      EndTurnIfNeeded();
    }

    /** Runs the win check. */
    method EndTurnIfNeeded()
      modifies this`gameOver, this`winner
      ensures WinnerOf(terrs) != NoOwner ==> gameOver && winner == WinnerOf(terrs)
      ensures WinnerOf(terrs) == NoOwner ==> gameOver == old(gameOver) && winner == old(winner)
    {
      CheckWin();
    }

    /** Counts each player's territories and ends the match when one of them,
        player 0 first, holds all but three. It never clears gameOver. */
    method CheckWin()
      modifies this`gameOver, this`winner
      ensures WinnerOf(terrs) != NoOwner ==> gameOver && winner == WinnerOf(terrs)
      ensures WinnerOf(terrs) == NoOwner ==> gameOver == old(gameOver) && winner == old(winner)
    {
      var owner0, owner1 := 0, 0;
      for i := 0 to |terrs|
        invariant owner0 == Count(terrs[..i], 0)
        invariant owner1 == Count(terrs[..i], 1)
      {
        assert terrs[..i + 1][..i] == terrs[..i];
        if terrs[i].owner == 0 {
          owner0 := owner0 + 1;
        }
        if terrs[i].owner == 1 {
          owner1 := owner1 + 1;
        }
      }
      assert terrs[..|terrs|] == terrs;
      if owner0 == |terrs| - 3 {
        gameOver := true;
        winner := 0;
      } else if owner1 == |terrs| - 3 {
        gameOver := true;
        winner := 1;
      }
    }

    // -------------------------------------------------------------------------
    // Reinforce

    /** Whether a reinforcement may go on territory `t`. */
    function CanPlaceReinforcement(t: int): (r: bool)
      reads this
      requires 0 <= t < |terrs|
      ensures Valid() && r ==> phase == Reinforce && terrs[t].armies >= 1
    {
      reinforcementsLeft > 0 && IsOwner(terrs, t, currentPlayer)
    }

    /** Places one reinforcement on `t`. It succeeds exactly when budget is
        left and the current player owns `t`: then `t` gains one army and the
        budget drops by one. Otherwise nothing changes, so the budget never
        goes negative. */
    method PlaceReinforcement(t: int)
      requires Valid() && !gameOver && phase == Reinforce && 0 <= t < |terrs|
      modifies this`terrs, this`reinforcementsLeft
      ensures Valid()
      ensures old(CanPlaceReinforcement(t)) ==>
                && terrs == WithArmies(old(terrs), t, old(terrs[t].armies) + 1)
                && reinforcementsLeft == old(reinforcementsLeft) - 1
                && Total(terrs) == old(Total(terrs)) + 1
      ensures !old(CanPlaceReinforcement(t)) ==> unchanged(this)
    {
      if !CanPlaceReinforcement(t) {
        return;
      }
      ghost var before := terrs;
      terrs := WithArmies(terrs, t, terrs[t].armies + 1);
      reinforcementsLeft := reinforcementsLeft - 1;
      TotalUpdate(before, t, terrs[t]);
      SameOwnersSameWinner(before, terrs);
      assert forall i :: 0 <= i < |before| ==> TerritoryOk(before[i], |before|);
    }

    // -------------------------------------------------------------------------
    // Attack

    /** Chooses `t` as the attack source. Accepted exactly when the current
        player owns `t` and it has at least two armies; then the source is `t`
        and the target is cleared. A rejection changes nothing. */
    method SelectAttackFrom(t: int) returns (ok: bool)
      requires Valid() && !gameOver && phase == Attack && 0 <= t < |terrs|
      modifies this`attackSel
      ensures Valid()
      ensures ok <==> IsOwner(terrs, t, currentPlayer) && terrs[t].armies >= 2
      ensures ok ==> attackSel == Selection(t, NoTerritory)
      ensures !ok ==> unchanged(this)
    {
      if !IsOwner(terrs, t, currentPlayer) {
        return false;
      }
      if terrs[t].armies < 2 {
        return false;
      }
      attackSel := attackSel.(fromTerr := t);
      attackSel := attackSel.(toTerr := NoTerritory);
      return true;
    }

    /** What resolving an attack from `a` on `d` did. When both dice counts
        are at least one, the board is the one AfterBattle describes, the
        target is cleared while the source stays, and the win check has run.
        Otherwise nothing changed: no armies move, no win check, and the
        target stays set. */
    twostate predicate AttackResolved(a: int, d: int, dice: seq<Die>)
      reads this
    {
      if 0 <= a < |old(terrs)| && 0 <= d < |old(terrs)| && |dice| >= MaxRolls
         && CanBattle(old(terrs)[a].armies, old(terrs)[d].armies)
      then
        && terrs == AfterBattle(old(terrs), a, d, dice)
        && attackSel == Selection(a, NoTerritory)
        && winner == WinnerOf(terrs)
        && gameOver == (winner != NoOwner)
      else
        && terrs == old(terrs)
        && attackSel == Selection(a, d)
        && gameOver == old(gameOver) && winner == old(winner)
    }

    /** Chooses `t` as the attack target and resolves the attack at once with
        the dice `dice`. Accepted exactly when a source is chosen, `t` is in
        its neighbour list and the current player does not own `t`. A
        rejection changes nothing. */
    method SelectAttackTo(t: int, dice: seq<Die>) returns (ok: bool)
      requires Valid() && !gameOver && phase == Attack && 0 <= t < |terrs|
      requires |dice| >= MaxRolls
      modifies this`terrs, this`attackSel, this`gameOver, this`winner
      ensures Valid()
      ensures ok <==> && old(attackSel.fromTerr) >= 0
                      && IsAdjacent(old(terrs), old(attackSel.fromTerr), t)
                      && !IsOwner(old(terrs), t, currentPlayer)
      ensures ok ==> AttackResolved(old(attackSel.fromTerr), t, dice)
      ensures !ok ==> unchanged(this)
    {
      if attackSel.fromTerr < 0 {
        return false;
      }
      if !IsAdjacent(terrs, attackSel.fromTerr, t) {
        return false;
      }
      if IsOwner(terrs, t, currentPlayer) {
        return false;
      }
      attackSel := attackSel.(toTerr := t);
      ResolveAttack(dice);
      return true;
    }

    /** Resolves the chosen attack. Attacker dice are min(3, armies - 1) and
        defender dice min(2, armies); with fewer than one on either side, or
        without both territories chosen, nothing happens. Otherwise the
        attacker's dice are the first of `dice` and the defender's the next;
        each side's rolls are sorted descending and compared pairwise, and the
        comparison stops once the defender has no army left or the attacker is
        down to one. The early stop never changes the outcome, which is the
        one Fight computes over all pairs. */
    method ResolveAttack(dice: seq<Die>)
      requires Valid() && !gameOver && phase == Attack && |dice| >= MaxRolls
      modifies this`terrs, this`attackSel, this`gameOver, this`winner
      ensures Valid()
      ensures old(attackSel.fromTerr) < 0 || old(attackSel.toTerr) < 0 ==> unchanged(this)
      ensures old(attackSel.fromTerr) >= 0 && old(attackSel.toTerr) >= 0 ==>
                AttackResolved(old(attackSel.fromTerr), old(attackSel.toTerr), dice)
    {
      var A := attackSel.fromTerr;
      var D := attackSel.toTerr;
      if A < 0 || D < 0 {
        return;
      }
      var aDice := Min(MaxAttackDice, terrs[A].armies - 1);
      if aDice < 1 {
        return;
      }
      var dDice := Min(MaxDefendDice, terrs[D].armies);
      if dDice < 1 {
        return;
      }

      FinishAttack(A, D, aDice, dDice, dice);
    }

    /** resolveAttack once both dice counts are at least one: the battle, the
        win check, and the target cleared while the source stays. */
    method FinishAttack(A: int, D: int, aDice: int, dDice: int, dice: seq<Die>)
      requires Valid() && !gameOver && phase == Attack && |dice| >= MaxRolls
      requires attackSel == Selection(A, D) && A >= 0 && D >= 0
      requires CanBattle(terrs[A].armies, terrs[D].armies)
      requires aDice == AttackDice(terrs[A].armies) && dDice == DefendDice(terrs[D].armies)
      modifies this`terrs, this`attackSel, this`gameOver, this`winner
      ensures Valid()
      ensures terrs == AfterBattle(old(terrs), A, D, dice)
      ensures attackSel == Selection(A, NoTerritory)
      ensures winner == WinnerOf(terrs) && gameOver == (winner != NoOwner)
    {
      ghost var base := terrs;
      Battle(A, D, aDice, dDice, dice);
      AfterBattleFacts(base, A, D, dice);
      AfterBattleWellFormed(base, A, D, dice);
      assert |terrs| == |base| && terrs[A].owner == currentPlayer;
      CheckWin();
      attackSel := attackSel.(toTerr := NoTerritory);
      AttackPhaseValid();
    }

    /** The invariant in the Attack phase, with a source chosen and no target. */
    lemma AttackPhaseValid()
      requires WellFormed(terrs) && IsPlayer(currentPlayer)
      requires phase == Attack && reinforcementsLeft == 0
      requires winner == WinnerOf(terrs) && (gameOver <==> winner != NoOwner)
      requires 0 <= attackSel.fromTerr < |terrs| && attackSel.toTerr == NoTerritory
      requires terrs[attackSel.fromTerr].owner == currentPlayer
      requires fortSel == Unset && !fortifyDone
      ensures Valid()
    {
    }

    /** The body of resolveAttack past its guards, given the dice counts the
        guards computed: rolls the dice, sorts each side's rolls, compares them
        pair by pair and, when the defender is left with no army, moves the
        attacker in with one army. The board it leaves is AfterBattle of the
        board it found. */
    method Battle(A: int, D: int, aDice: int, dDice: int, dice: seq<Die>)
      requires 0 <= A < |terrs| && 0 <= D < |terrs| && A != D
      requires CanBattle(terrs[A].armies, terrs[D].armies) && |dice| >= MaxRolls
      requires aDice == AttackDice(terrs[A].armies) && dDice == DefendDice(terrs[D].armies)
      modifies this`terrs
      ensures terrs == AfterBattle(old(terrs), A, D, dice)
    {
      ghost var base := terrs;
      var aRolls, dRolls := RollDice(dice, aDice, dDice);
      aRolls := SortDesc(aRolls);
      dRolls := SortDesc(dRolls);
      assert aRolls == AttackerRolls(base[A].armies, base[D].armies, dice);
      assert dRolls == DefenderRolls(base[A].armies, base[D].armies, dice);
      ComparePairs(A, D, aRolls, dRolls);
      if terrs[D].armies <= 0 {
        terrs := terrs[D := terrs[D].(owner := terrs[A].owner, armies := 1)];
        terrs := WithArmies(terrs, A, terrs[A].armies - 1);
      }
      AfterBattleIs(base, A, D, dice, terrs);
    }

    /** The pair loop of resolveAttack: compares the sorted rolls pair by pair,
        each pair costing the loser one army, the defender on a strictly
        higher attacker roll and the attacker otherwise, and stops early once
        the defender has no army left or the attacker is down to one. The
        early stop never changes the outcome: the armies left are those of
        comparing every pair. */
    method ComparePairs(A: int, D: int, aRolls: seq<int>, dRolls: seq<int>)
      requires 0 <= A < |terrs| && 0 <= D < |terrs| && A != D
      requires CanBattle(terrs[A].armies, terrs[D].armies)
      requires |aRolls| == AttackDice(terrs[A].armies) && |dRolls| == DefendDice(terrs[D].armies)
      modifies this`terrs
      ensures |terrs| == |old(terrs)|
      ensures forall i :: 0 <= i < |terrs| && i != A && i != D ==> terrs[i] == old(terrs[i])
      ensures var w := Wins(aRolls, dRolls, Pairs(old(terrs[A].armies), old(terrs[D].armies)));
              && terrs[A] == old(terrs[A]).(armies := old(terrs[A].armies) - (Pairs(old(terrs[A].armies), old(terrs[D].armies)) - w))
              && terrs[D] == old(terrs[D]).(armies := old(terrs[D].armies) - w)
    {
      ghost var base := terrs;
      ghost var att, def := terrs[A].armies, terrs[D].armies;
      var pairs := Min(|aRolls|, |dRolls|);
      var k := 0;
      while k < pairs
        invariant 0 <= k <= pairs
        invariant |terrs| == |base|
        invariant forall i :: 0 <= i < |base| && i != A && i != D ==> terrs[i] == base[i]
        invariant terrs[A] == base[A].(armies := att - (k - Wins(aRolls, dRolls, k)))
        invariant terrs[D] == base[D].(armies := def - Wins(aRolls, dRolls, k))
      {
        if aRolls[k] > dRolls[k] {
          terrs := WithArmies(terrs, D, terrs[D].armies - 1);
        } else {
          terrs := WithArmies(terrs, A, terrs[A].armies - 1);
        }
        if terrs[D].armies <= 0 {
          assert k + 1 == pairs;
          break;
        }
        if terrs[A].armies <= 1 {
          assert k + 1 == pairs;
          break;
        }
        k := k + 1;
      }
    }

    // -------------------------------------------------------------------------
    // Fortify

    /** Chooses `t` as the fortify source. Accepted exactly when no fortify
        move was made this turn, the current player owns `t` and it has at
        least two armies; then the source is `t` and the target is cleared.
        A rejection changes nothing. */
    method SelectFortifyFrom(t: int) returns (ok: bool)
      requires Valid() && !gameOver && phase == Fortify && 0 <= t < |terrs|
      modifies this`fortSel
      ensures Valid()
      ensures ok <==> !fortifyDone && IsOwner(terrs, t, currentPlayer) && terrs[t].armies >= 2
      ensures ok ==> fortSel == Selection(t, NoTerritory)
      ensures !ok ==> unchanged(this)
    {
      if fortifyDone {
        return false;
      }
      if !IsOwner(terrs, t, currentPlayer) {
        return false;
      }
      if terrs[t].armies < 2 {
        return false;
      }
      fortSel := fortSel.(fromTerr := t);
      fortSel := fortSel.(toTerr := NoTerritory);
      return true;
    }

    /** Chooses `t` as the fortify target and moves the army at once.
        Accepted exactly when no fortify move was made this turn, a source is
        chosen, the current player owns `t` and `t` is in the source's
        neighbour list; then one army moves from the source to `t`, the board
        total is unchanged, and the turn's fortify is spent. A rejection
        changes nothing. */
    method SelectFortifyTo(t: int) returns (ok: bool)
      requires Valid() && !gameOver && phase == Fortify && 0 <= t < |terrs|
      modifies this`fortSel, this`terrs, this`fortifyDone
      ensures Valid()
      ensures ok <==> && !old(fortifyDone)
                      && old(fortSel.fromTerr) >= 0
                      && IsOwner(old(terrs), t, currentPlayer)
                      && IsAdjacent(old(terrs), old(fortSel.fromTerr), t)
      ensures ok ==>
                && fortSel == Selection(old(fortSel.fromTerr), t)
                && terrs == MoveOne(old(terrs), old(fortSel.fromTerr), t)
                && Total(terrs) == old(Total(terrs))
                && fortifyDone
      ensures !ok ==> unchanged(this)
    {
      if fortifyDone {
        return false;
      }
      if fortSel.fromTerr < 0 {
        return false;
      }
      if !IsOwner(terrs, t, currentPlayer) {
        return false;
      }
      if !IsAdjacent(terrs, fortSel.fromTerr, t) {
        return false;
      }
      fortSel := fortSel.(toTerr := t);
      DoFortifyMove();
      MoveOneConserves(old(terrs), fortSel.fromTerr, t);
      return true;
    }

    /** Moves exactly one army from the fortify source to the fortify target
        and spends the turn's fortify; without both chosen it does nothing. */
    method DoFortifyMove()
      requires Valid() && !gameOver && phase == Fortify && !fortifyDone
      modifies this`terrs, this`fortifyDone
      ensures Valid()
      ensures fortSel.fromTerr < 0 || fortSel.toTerr < 0 ==> unchanged(this)
      ensures fortSel.fromTerr >= 0 && fortSel.toTerr >= 0 ==>
                && terrs == MoveOne(old(terrs), fortSel.fromTerr, fortSel.toTerr)
                && fortifyDone
    {
      var A := fortSel.fromTerr;
      var B := fortSel.toTerr;
      if A < 0 || B < 0 {
        return;
      }
      ghost var before := terrs;
      MoveOneConserves(before, A, B);
      MoveOneWellFormed(before, A, B);
      SameOwnersSameWinner(before, MoveOne(before, A, B));
      terrs := WithArmies(terrs, A, terrs[A].armies - 1);
      terrs := WithArmies(terrs, B, terrs[B].armies + 1);
      assert terrs == MoveOne(before, A, B);
      fortifyDone := true;
    }
  }
}
