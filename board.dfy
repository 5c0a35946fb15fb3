/** The board of the two-player conquest game: territories with an owner, an
    army count and a directed neighbour list; the queries the rules ask of
    them; owner counts and army totals; and the default fourteen-territory map. */
module Board {

  /** Owner code of a territory that neither player holds. Players are 0 and 1. */
  const NoOwner := -1

  /** Armies every territory of the default map starts with. */
  const InitialArmies := 3

  /** Number of territories of the default map. */
  const DefaultSize := 14

  /** One territory. `neighbors` holds indices into the board. */
  datatype Territory = Territory(owner: int, armies: int, neighbors: seq<int>)

  predicate IsPlayer(p: int) {
    p == 0 || p == 1
  }

  /** The rule-level invariant of one territory on a board of `n` territories:
      its owner is NoOwner, 0 or 1; its armies are never negative, and at least
      one when it is owned; every neighbour index lies on the board. */
  ghost predicate TerritoryOk(t: Territory, n: int) {
    && NoOwner <= t.owner <= 1
    && t.armies >= 0
    && (t.owner != NoOwner ==> t.armies >= 1)
    && forall j :: 0 <= j < |t.neighbors| ==> 0 <= t.neighbors[j] < n
  }

  ghost predicate WellFormed(ts: seq<Territory>) {
    forall i :: 0 <= i < |ts| ==> TerritoryOk(ts[i], |ts|)
  }

  /** Whether `player` owns territory `t`. A territory it owns always
      counts towards its holdings in the win check. */
  function IsOwner(ts: seq<Territory>, t: int, player: int): (r: bool)
    requires 0 <= t < |ts|
    ensures r ==> Count(ts, player) >= 1
  {
    OwnedIsCounted(ts, t, player);
    ts[t].owner == player
  }

  /** An owned territory of a well-formed board has an army to show for it.
      Well-formedness is part of Game.Valid(), which every command keeps, so
      this holds of the board after every command. */
  lemma OwnedHasArmy(ts: seq<Territory>, t: int, player: int)
    requires WellFormed(ts) && 0 <= t < |ts| && IsPlayer(player)
    ensures IsOwner(ts, t, player) ==> ts[t].armies >= 1
  {
  }

  /** The linear scan of a neighbour list. */
  function InList(ns: seq<int>, b: int): (r: bool)
    ensures r <==> b in ns
  {
    if |ns| == 0 then false
    else if ns[0] == b then true
    else InList(ns[1..], b)
  }

  /** Adjacency is the directed lookup of `b` in the neighbour list of `a`. */
  function IsAdjacent(ts: seq<Territory>, a: int, b: int): (r: bool)
    requires 0 <= a < |ts|
    ensures r <==> b in ts[a].neighbors
  {
    InList(ts[a].neighbors, b)
  }

  /** Board `ts` with the army count of territory `i` replaced by `n`. */
  function WithArmies(ts: seq<Territory>, i: int, n: int): seq<Territory>
    requires 0 <= i < |ts|
  {
    ts[i := ts[i].(armies := n)]
  }

  // ---------------------------------------------------------------------------
  // Owner counts and the win test

  /** Number of territories held by `player`, counted from the front as the
      range-for loop of checkWin does. */
  function Count(ts: seq<Territory>, player: int): (c: nat)
    ensures c <= |ts|
  {
    if |ts| == 0 then 0
    else Count(ts[..|ts| - 1], player) + (if ts[|ts| - 1].owner == player then 1 else 0)
  }

  /** Whoever owns territory `t` is counted at least once. */
  lemma {:induction false} OwnedIsCounted(ts: seq<Territory>, t: int, player: int)
    requires 0 <= t < |ts|
    ensures ts[t].owner == player ==> Count(ts, player) >= 1
  {
    if t < |ts| - 1 {
      OwnedIsCounted(ts[..|ts| - 1], t, player);
    }
  }

  /** The player checkWin declares winner, or NoOwner. A player wins on holding
      exactly all but three territories; player 0 is tested first, and there is
      no winner exactly when neither holds that many. */
  function WinnerOf(ts: seq<Territory>): (w: int)
    ensures w == NoOwner || IsPlayer(w)
    ensures w != NoOwner ==> Count(ts, w) == |ts| - 3
    ensures w == NoOwner <==> Count(ts, 0) != |ts| - 3 && Count(ts, 1) != |ts| - 3
  {
    if Count(ts, 0) == |ts| - 3 then 0
    else if Count(ts, 1) == |ts| - 3 then 1
    else NoOwner
  }

  /** The two players together hold no more territories than the board has. */
  lemma {:induction false} CountsFitBoard(ts: seq<Territory>)
    ensures Count(ts, 0) + Count(ts, 1) <= |ts|
  {
    if |ts| > 0 {
      CountsFitBoard(ts[..|ts| - 1]);
    }
  }

  /** Counts depend on the owners alone. */
  lemma {:induction false} SameOwnersSameCount(s: seq<Territory>, t: seq<Territory>, player: int)
    requires |s| == |t|
    requires forall i :: 0 <= i < |s| ==> s[i].owner == t[i].owner
    ensures Count(s, player) == Count(t, player)
  {
    if |s| > 0 {
      SameOwnersSameCount(s[..|s| - 1], t[..|t| - 1], player);
    }
  }

  /** So the winner depends on the owners alone. */
  lemma SameOwnersSameWinner(s: seq<Territory>, t: seq<Territory>)
    requires |s| == |t|
    requires forall i :: 0 <= i < |s| ==> s[i].owner == t[i].owner
    ensures WinnerOf(s) == WinnerOf(t)
  {
    SameOwnersSameCount(s, t, 0);
    SameOwnersSameCount(s, t, 1);
  }

  /** Replacing one territory changes a player's count by its change of owner. */
  lemma {:induction false} CountUpdate(ts: seq<Territory>, i: int, t: Territory, player: int)
    requires 0 <= i < |ts|
    ensures Count(ts[i := t], player)
            == Count(ts, player) - (if ts[i].owner == player then 1 else 0)
                                 + (if t.owner == player then 1 else 0)
  {
    var n := |ts|;
    if i == n - 1 {
      assert ts[i := t][..n - 1] == ts[..n - 1];
    } else {
      assert ts[i := t][..n - 1] == ts[..n - 1][i := t];
      CountUpdate(ts[..n - 1], i, t, player);
    }
  }

  /** When a winner is declared, the opponent holds at most three territories. */
  lemma WinnerLeavesAtMostThree(ts: seq<Territory>)
    ensures WinnerOf(ts) != NoOwner ==> Count(ts, 1 - WinnerOf(ts)) <= 3
  {
    CountsFitBoard(ts);
  }

  /** Conversely, on a board of more than six territories, a player holding all
      but three territories is the winner, whichever of the two it is: the two
      players can never both reach the threshold, so testing player 0 first
      decides nothing there. */
  lemma ThresholdDeclaresWinner(ts: seq<Territory>, player: int)
    requires |ts| > 6 && IsPlayer(player)
    requires Count(ts, player) == |ts| - 3
    ensures WinnerOf(ts) == player
  {
    CountsFitBoard(ts);
  }

  // ---------------------------------------------------------------------------
  // Army totals

  /** Total number of armies on the board. */
  function Total(ts: seq<Territory>): int {
    if |ts| == 0 then 0 else Total(ts[..|ts| - 1]) + ts[|ts| - 1].armies
  }

  /** Replacing one territory changes the total by exactly its change in armies. */
  lemma {:induction false} TotalUpdate(ts: seq<Territory>, i: int, t: Territory)
    requires 0 <= i < |ts|
    ensures Total(ts[i := t]) == Total(ts) - ts[i].armies + t.armies
  {
    var n := |ts|;
    if i == n - 1 {
      assert ts[i := t][..n - 1] == ts[..n - 1];
    } else {
      assert ts[i := t][..n - 1] == ts[..n - 1][i := t];
      TotalUpdate(ts[..n - 1], i, t);
    }
  }

  /** The board after doFortifyMove: one army leaves `a`, then one arrives at `b`. */
  function MoveOne(ts: seq<Territory>, a: int, b: int): (r: seq<Territory>)
    requires 0 <= a < |ts| && 0 <= b < |ts|
    ensures |r| == |ts|
    ensures forall i :: 0 <= i < |ts| && i != a && i != b ==> r[i] == ts[i]
  {
    var lifted := WithArmies(ts, a, ts[a].armies - 1);
    WithArmies(lifted, b, lifted[b].armies + 1)
  }

  /** A fortify move conserves the board's armies and touches only the
      army counts of its two territories. */
  lemma MoveOneConserves(ts: seq<Territory>, a: int, b: int)
    requires 0 <= a < |ts| && 0 <= b < |ts|
    ensures Total(MoveOne(ts, a, b)) == Total(ts)
    ensures forall i :: 0 <= i < |ts| ==>
              && MoveOne(ts, a, b)[i].owner == ts[i].owner
              && MoveOne(ts, a, b)[i].neighbors == ts[i].neighbors
    ensures a != b ==>
              && MoveOne(ts, a, b)[a].armies == ts[a].armies - 1
              && MoveOne(ts, a, b)[b].armies == ts[b].armies + 1
  {
    var lifted := WithArmies(ts, a, ts[a].armies - 1);
    var r := WithArmies(lifted, b, lifted[b].armies + 1);
    assert MoveOne(ts, a, b) == r;
    assert Total(r) == Total(ts) by {
      TotalUpdate(ts, a, lifted[a]);
      TotalUpdate(lifted, b, r[b]);
    }
  }

  /** A fortify move keeps a well-formed board well formed when its source
      has an army to spare. */
  lemma MoveOneWellFormed(ts: seq<Territory>, a: int, b: int)
    requires WellFormed(ts) && 0 <= a < |ts| && 0 <= b < |ts|
    requires ts[a].armies >= 2
    ensures WellFormed(MoveOne(ts, a, b))
  {
  }

  // ---------------------------------------------------------------------------
  // The default map

  /** The neighbour lists initSimpleMap assigns, territory by territory. */
  function DefaultNeighbors(): seq<seq<int>> {
    [ [1, 2], [0, 3, 7], [0, 3, 4], [1, 2, 4],
      [2, 3, 5, 9], [4, 6, 9], [5],
      [1, 8, 9], [7, 9, 11, 12],
      [4, 5, 7, 8, 10, 11], [9, 11],
      [8, 9, 10, 12],
      [1, 8, 11, 13],
      [12] ]
  }

  /** The owner initSimpleMap gives territory `i`: alternating by parity. */
  function InitialOwner(i: int): int {
    if i % 2 == 0 then 0 else 1
  }

  /** The default board: fourteen territories, three armies each, owners
      alternating by index parity. */
  function DefaultMap(): seq<Territory> {
    seq(DefaultSize, i requires 0 <= i < DefaultSize =>
      Territory(InitialOwner(i), InitialArmies, DefaultNeighbors()[i]))
  }

  /** Holdings of a board whose owners alternate by parity from index 0. */
  lemma {:induction false} AlternatingCounts(ts: seq<Territory>)
    requires forall i :: 0 <= i < |ts| ==> ts[i].owner == InitialOwner(i)
    ensures Count(ts, 0) == (|ts| + 1) / 2 && Count(ts, 1) == |ts| / 2
  {
    if |ts| > 0 {
      AlternatingCounts(ts[..|ts| - 1]);
    }
  }

  /** A board with the same army count `k` everywhere holds `k` per territory. */
  lemma {:induction false} UniformTotal(ts: seq<Territory>, k: int)
    requires forall i :: 0 <= i < |ts| ==> ts[i].armies == k
    ensures Total(ts) == k * |ts|
  {
    if |ts| > 0 {
      UniformTotal(ts[..|ts| - 1], k);
    }
  }

  /** The default map is well formed, gives each player seven territories
      and holds 42 armies in all, so nobody has won at the start. */
  lemma DefaultMapFacts()
    ensures |DefaultMap()| == DefaultSize
    ensures WellFormed(DefaultMap())
    ensures Count(DefaultMap(), 0) == 7 && Count(DefaultMap(), 1) == 7
    ensures WinnerOf(DefaultMap()) == NoOwner
    ensures Total(DefaultMap()) == 42
  {
    var m := DefaultMap();
    assert forall i :: 0 <= i < |DefaultNeighbors()| ==>
      forall j :: 0 <= j < |DefaultNeighbors()[i]| ==> 0 <= DefaultNeighbors()[i][j] < DefaultSize;
    AlternatingCounts(m);
    UniformTotal(m, InitialArmies);
  }

  /** Adjacency on the default map is not symmetric: territory 12 lists 1 as a
      neighbour, but territory 1 does not list 12. */
  lemma DefaultAdjacencyAsymmetric()
    ensures IsAdjacent(DefaultMap(), 12, 1)
    ensures !IsAdjacent(DefaultMap(), 1, 12)
  {
  }
}
