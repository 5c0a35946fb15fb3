/** Dice-based combat resolution: how many dice each side rolls, the
    descending sort of the rolls, the pairwise comparison in which ties go to
    the defender, the capture rule, and the board an attack leaves behind. */
module Combat {
  import opened Board

  /** A face of the six-sided die that rollDie returns. */
  type Die = x: int | 1 <= x <= 6 witness 1

  const MaxAttackDice := 3
  const MaxDefendDice := 2

  /** The most dice one attack rolls, attacker's and defender's together. */
  const MaxRolls := MaxAttackDice + MaxDefendDice

  function Min(a: int, b: int): int {
    if a < b then a else b
  }

  /** Attacker dice: up to three, but one army must stay behind. */
  function AttackDice(armies: int): int {
    Min(MaxAttackDice, armies - 1)
  }

  /** Defender dice: up to two, but no more than its armies. */
  function DefendDice(armies: int): int {
    Min(MaxDefendDice, armies)
  }

  /** Whether resolveAttack gets past its two dice-count guards. */
  predicate CanBattle(att: int, def: int) {
    AttackDice(att) >= 1 && DefendDice(def) >= 1
  }

  /** Number of die pairs compared in one attack. */
  function Pairs(att: int, def: int): (n: int)
    requires CanBattle(att, def)
    ensures 1 <= n <= 2
    ensures n <= att - 1 && n <= def
  {
    Min(AttackDice(att), DefendDice(def))
  }

  // ---------------------------------------------------------------------------
  // Sorting the rolls, highest first

  predicate SortedDesc(s: seq<int>) {
    forall i, j :: 0 <= i < j < |s| ==> s[i] >= s[j]
  }

  function Insert(x: int, s: seq<int>): (r: seq<int>)
    requires SortedDesc(s)
    ensures |r| == |s| + 1
    ensures r[0] == x || (|s| > 0 && r[0] == s[0])
    ensures SortedDesc(r)
    ensures multiset(r) == multiset(s) + multiset{x}
  {
    if |s| == 0 || x >= s[0] then [x] + s
    else
      assert s == [s[0]] + s[1..];
      [s[0]] + Insert(x, s[1..])
  }

  /** The rolls in descending order, as std::sort with std::greater leaves
      them: sorted, and a permutation of the rolls given. */
  function SortDesc(s: seq<int>): (r: seq<int>)
    ensures |r| == |s|
    ensures SortedDesc(r)
    ensures multiset(r) == multiset(s)
  {
    if |s| == 0 then []
    else
      assert s == [s[0]] + s[1..];
      Insert(s[0], SortDesc(s[1..]))
  }

  /** Rolls already in descending order are left as they are. */
  lemma {:induction false} SortDescKeepsSorted(s: seq<int>)
    requires SortedDesc(s)
    ensures SortDesc(s) == s
  {
    if |s| > 0 {
      assert s == [s[0]] + s[1..];
      assert SortedDesc(s[1..]);
      SortDescKeepsSorted(s[1..]);
    }
  }

  /** The first comparison is between the highest roll of each side. */
  lemma SortedHeadIsHighest(s: seq<int>, x: int)
    requires x in s
    ensures |SortDesc(s)| > 0 && SortDesc(s)[0] >= x
  {
  }

  // ---------------------------------------------------------------------------
  // Comparing pairs

  /** Number of the first `n` pairs the attacker wins, which takes a strictly
      higher roll. Every other pair costs the attacker an army. */
  function Wins(a: seq<int>, d: seq<int>, n: int): (w: int)
    requires 0 <= n <= |a| && n <= |d|
    ensures 0 <= w <= n
  {
    if n == 0 then 0 else Wins(a, d, n - 1) + (if a[n - 1] > d[n - 1] then 1 else 0)
  }

  /** The pair indices where the attacker's die is strictly higher. */
  function StrictPairs(a: seq<int>, d: seq<int>, n: int): set<int>
    requires 0 <= n <= |a| && n <= |d|
  {
    set i | 0 <= i < n && a[i] > d[i]
  }

  /** The defender loses exactly one army per pair the attacker's die
      strictly beats. */
  lemma {:induction false} WinsCountsStrictPairs(a: seq<int>, d: seq<int>, n: int)
    requires 0 <= n <= |a| && n <= |d|
    ensures Wins(a, d, n) == |StrictPairs(a, d, n)|
  {
    if n == 0 {
      assert StrictPairs(a, d, n) == {};
    } else {
      WinsCountsStrictPairs(a, d, n - 1);
      var before := StrictPairs(a, d, n - 1);
      assert n - 1 !in before;
      if a[n - 1] > d[n - 1] {
        assert StrictPairs(a, d, n) == before + {n - 1};
      } else {
        assert StrictPairs(a, d, n) == before;
      }
    }
  }

  /** Ties go to the defender: when no attacker die beats its defender die,
      the attacker wins no pair at all. */
  lemma {:induction false} TiesGoToDefender(a: seq<int>, d: seq<int>, n: int)
    requires 0 <= n <= |a| && n <= |d|
    requires forall i :: 0 <= i < n ==> a[i] <= d[i]
    ensures Wins(a, d, n) == 0
  {
    if n > 0 {
      TiesGoToDefender(a, d, n - 1);
    }
  }

  /** When every attacker die beats its defender die, the attacker wins every pair. */
  lemma {:induction false} HigherRollsWinEveryPair(a: seq<int>, d: seq<int>, n: int)
    requires 0 <= n <= |a| && n <= |d|
    requires forall i :: 0 <= i < n ==> a[i] > d[i]
    ensures Wins(a, d, n) == n
  {
    if n > 0 {
      HigherRollsWinEveryPair(a, d, n - 1);
    }
  }

  // ---------------------------------------------------------------------------
  // One resolution

  /** What one resolution leaves: the armies on the attacking and the defending
      territory, and whether the defending territory was captured. */
  datatype Battle = Battle(attacker: int, defender: int, captured: bool)

  /** Resolution of `att` attacking armies against `def` defending armies with
      the sorted rolls of both sides: the defender loses one army per pair it
      loses, the attacker one per pair it does not win; a defender left with no
      army is captured, holds exactly one army afterwards, and that army is
      taken from the attacker. */
  function Fight(att: int, def: int, aRolls: seq<int>, dRolls: seq<int>): (b: Battle)
    requires CanBattle(att, def)
    requires |aRolls| == AttackDice(att) && |dRolls| == DefendDice(def)
    ensures b.attacker >= 1 && b.defender >= 1
    ensures b.attacker + b.defender == att + def - Pairs(att, def)
    ensures b.captured <==> Wins(aRolls, dRolls, Pairs(att, def)) == def
    ensures b.captured ==> b.defender == 1
    ensures !b.captured ==> b.defender == def - Wins(aRolls, dRolls, Pairs(att, def))
  {
    var n := Min(|aRolls|, |dRolls|);
    var w := Wins(aRolls, dRolls, n);
    if def - w <= 0 then Battle(att - (n - w) - 1, 1, true)
    else Battle(att - (n - w), def - w, false)
  }

  /** Two armies against one, the attacker rolling 6 and the defender 1: the
      defender is captured and each territory ends with one army. */
  lemma CaptureExample()
    ensures Fight(2, 1, [6], [1]) == Battle(1, 1, true)
  {
  }

  /** Two armies against one with both dice showing 3: the tie costs the
      attacker its army and the defender keeps the territory. */
  lemma TieExample()
    ensures Fight(2, 1, [3], [3]) == Battle(1, 1, false)
  {
  }

  // ---------------------------------------------------------------------------
  // The board after an attack

  /** The attacker's sorted rolls: the first AttackDice(att) dice. */
  function AttackerRolls(att: int, def: int, dice: seq<Die>): seq<int>
    requires CanBattle(att, def) && |dice| >= MaxRolls
  {
    SortDesc(dice[..AttackDice(att)])
  }

  /** The defender's sorted rolls: the next DefendDice(def) dice. */
  function DefenderRolls(att: int, def: int, dice: seq<Die>): seq<int>
    requires CanBattle(att, def) && |dice| >= MaxRolls
  {
    SortDesc(dice[AttackDice(att)..AttackDice(att) + DefendDice(def)])
  }

  /** Dice that come out of the stream already in descending order on both
      sides are compared as they were rolled. */
  lemma SortedDiceStay(att: int, def: int, dice: seq<Die>)
    requires CanBattle(att, def) && |dice| >= MaxRolls
    requires SortedDesc(dice[..AttackDice(att)])
    requires SortedDesc(dice[AttackDice(att)..AttackDice(att) + DefendDice(def)])
    ensures AttackerRolls(att, def, dice) == dice[..AttackDice(att)]
    ensures DefenderRolls(att, def, dice) == dice[AttackDice(att)..AttackDice(att) + DefendDice(def)]
  {
    SortDescKeepsSorted(dice[..AttackDice(att)]);
    SortDescKeepsSorted(dice[AttackDice(att)..AttackDice(att) + DefendDice(def)]);
  }

  /** The outcome of `a` attacking `d` on board `ts` with the dice `dice`. */
  function Outcome(ts: seq<Territory>, a: int, d: int, dice: seq<Die>): Battle
    requires 0 <= a < |ts| && 0 <= d < |ts|
    requires CanBattle(ts[a].armies, ts[d].armies) && |dice| >= MaxRolls
  {
    var att, def := ts[a].armies, ts[d].armies;
    Fight(att, def, AttackerRolls(att, def, dice), DefenderRolls(att, def, dice))
  }

  /** The board resolveAttack leaves after rolling dice for `a` attacking `d`. */
  function AfterBattle(ts: seq<Territory>, a: int, d: int, dice: seq<Die>): (r: seq<Territory>)
    requires 0 <= a < |ts| && 0 <= d < |ts|
    requires CanBattle(ts[a].armies, ts[d].armies) && |dice| >= MaxRolls
    ensures |r| == |ts|
    ensures forall i :: 0 <= i < |ts| && i != a && i != d ==> r[i] == ts[i]
  {
    var b := Outcome(ts, a, d, dice);
    ts[a := ts[a].(armies := b.attacker)]
      [d := ts[d].(owner := if b.captured then ts[a].owner else ts[d].owner, armies := b.defender)]
  }

  /** A board that agrees with AfterBattle territory by territory is AfterBattle. */
  lemma AfterBattleIs(ts: seq<Territory>, a: int, d: int, dice: seq<Die>, r: seq<Territory>)
    requires 0 <= a < |ts| && 0 <= d < |ts| && a != d
    requires CanBattle(ts[a].armies, ts[d].armies) && |dice| >= MaxRolls
    requires |r| == |ts|
    requires forall i :: 0 <= i < |ts| && i != a && i != d ==> r[i] == ts[i]
    requires r[a] == ts[a].(armies := Outcome(ts, a, d, dice).attacker)
    requires r[d] == ts[d].(owner := if Outcome(ts, a, d, dice).captured then ts[a].owner else ts[d].owner,
                            armies := Outcome(ts, a, d, dice).defender)
    ensures r == AfterBattle(ts, a, d, dice)
  {
  }

  /** Apart from leaving the other territories alone, an attack: both
      keep at least one army, the defender changes hands exactly on capture
      and then to the attacker's owner, and the board loses exactly one army
      per compared pair. */
  lemma AfterBattleFacts(ts: seq<Territory>, a: int, d: int, dice: seq<Die>)
    requires 0 <= a < |ts| && 0 <= d < |ts| && a != d
    requires CanBattle(ts[a].armies, ts[d].armies) && |dice| >= MaxRolls
    ensures var r, b := AfterBattle(ts, a, d, dice), Outcome(ts, a, d, dice);
      && r[a] == ts[a].(armies := b.attacker)
      && r[d].neighbors == ts[d].neighbors
      && r[d].owner == (if b.captured then ts[a].owner else ts[d].owner)
      && r[a].armies >= 1 && r[d].armies >= 1
      && Total(r) == Total(ts) - Pairs(ts[a].armies, ts[d].armies)
  {
    var b := Outcome(ts, a, d, dice);
    var mid := ts[a := ts[a].(armies := b.attacker)];
    var dt := ts[d].(owner := if b.captured then ts[a].owner else ts[d].owner, armies := b.defender);
    TotalUpdate(ts, a, mid[a]);
    TotalUpdate(mid, d, dt);
  }

  /** An attack keeps a well-formed board well formed. */
  lemma AfterBattleWellFormed(ts: seq<Territory>, a: int, d: int, dice: seq<Die>)
    requires 0 <= a < |ts| && 0 <= d < |ts| && a != d
    requires CanBattle(ts[a].armies, ts[d].armies) && |dice| >= MaxRolls
    requires WellFormed(ts)
    ensures WellFormed(AfterBattle(ts, a, d, dice))
  {
  }
}
