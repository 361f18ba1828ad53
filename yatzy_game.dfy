/**
 * Game session: players, rounds and turns over one shared dice set and one
 * scoring engine per player.
 */
module Game {
  import opened Wrappers
  import opened Dice
  import opened Engine

  /** The record `endGame` stores: a player's name and total. */
  datatype Winner = Winner(name: string, total: int)

  function DigitChar(d: nat): char
    requires d < 10
  {
    ('0' as int + d) as char
  }

  /** Decimal digits of n, as a template literal prints them. */
  function Decimal(n: nat): (s: string)
    ensures |s| >= 1
    ensures forall i :: 0 <= i < |s| ==> '0' <= s[i] <= '9'
  {
    if n < 10 then [DigitChar(n)] else Decimal(n / 10) + [DigitChar(n % 10)]
  }

  /** The number a string of decimal digits denotes. */
  function DigitsValue(s: string): nat
    requires forall i :: 0 <= i < |s| ==> '0' <= s[i] <= '9'
  {
    if |s| == 0 then 0
    else DigitsValue(s[..|s| - 1]) * 10 + (s[|s| - 1] as int - '0' as int)
  }

  /** Reading the digits back gives the number. */
  lemma {:induction false} DecimalRoundTrip(n: nat)
    ensures DigitsValue(Decimal(n)) == n
  {
    if n >= 10 {
      var s := Decimal(n);
      assert s[..|s| - 1] == Decimal(n / 10);
      DecimalRoundTrip(n / 10);
    }
  }

  /** `Player ${i + 1}` for the player at index i. */
  function PlayerName(i: nat): (s: string)
    ensures |s| > 7 && s[..7] == "Player " && s[7..] == Decimal(i + 1)
  {
    "Player " + Decimal(i + 1)
  }

  /** No two players get the same name. */
  lemma PlayerNamesDistinct(i: nat, j: nat)
    requires i != j
    ensures PlayerName(i) != PlayerName(j)
  {
    DecimalRoundTrip(i + 1);
    DecimalRoundTrip(j + 1);
    assert PlayerName(i)[7..] == Decimal(i + 1);
    assert PlayerName(j)[7..] == Decimal(j + 1);
  }

  /** k is the first position holding the largest value of ts. */
  ghost predicate FirstLeader(ts: seq<int>, k: int) {
    0 <= k < |ts| &&
    (forall j :: 0 <= j < |ts| ==> ts[j] <= ts[k]) &&
    (forall j :: 0 <= j < k ==> ts[j] < ts[k])
  }

  /**
   * The index a stable sort by descending total puts first: the first
   * player, in player order, with the largest total.
   */
  function FirstMax(ts: seq<int>): (k: nat)
    requires |ts| > 0
    ensures FirstLeader(ts, k)
  {
    if |ts| == 1 then 0
    else
      var k := FirstMax(ts[..|ts| - 1]);
      if ts[|ts| - 1] > ts[k] then |ts| - 1 else k
  }

  /** At most one position is the first leader. */
  lemma FirstLeaderUnique(ts: seq<int>, k: int, m: int)
    requires FirstLeader(ts, k) && FirstLeader(ts, m)
    ensures k == m
  {
    var atK, atM := ts[k], ts[m];
    assert atM <= atK && atK <= atM;
    assert k < m ==> atK < atM;
    assert m < k ==> atM < atK;
  }

  /** Advancing a player index modulo n stays in range and wraps only from the last player. */
  lemma NextIndex(i: nat, n: nat)
    requires i < n
    ensures 0 <= (i + 1) % n < n
    ensures (i + 1) % n == if i + 1 == n then 0 else i + 1
  {
  }

  /** One `roll()` as seen by the counter: below the limit it goes up by one. */
  function RollStep(rolls: nat, limit: int): nat {
    if rolls >= limit then rolls else rolls + 1
  }

  /** The counter after n calls of `roll()`. */
  function RollSteps(rolls: nat, limit: int, n: nat): nat
    decreases n
  {
    if n == 0 then rolls else RollSteps(RollStep(rolls, limit), limit, n - 1)
  }

  /**
   * Repeated rolls stop exactly at the limit: from a counter at or below the
   * limit, n rolls give min(rolls + n, limit), never more than the limit.
   */
  lemma {:induction false} RollStepsCapped(rolls: nat, limit: int, n: nat)
    requires rolls <= limit
    ensures RollSteps(rolls, limit, n) == if rolls + n <= limit then rolls + n else limit
    ensures RollSteps(rolls, limit, n) <= limit
    decreases n
  {
    if n > 0 {
      RollStepsCapped(RollStep(rolls, limit), limit, n - 1);
    }
  }

  class PlayerState {
    const name: string
    const engine: YatzyEngine

    constructor (name: string)
      ensures this.name == name && fresh(engine)
      ensures engine.Valid() && engine.scoreTable == FreshTable() && !engine.upperBonusAwarded
    {
      this.name := name;
      engine := new YatzyEngine();
    }

    /** The player's total: every entry of their table plus their bonus. */
    function TotalScore(): (t: int)
      reads engine
      ensures t == SumScores(engine.scoreTable, AllCategories) + engine.UpperBonus()
    {
      engine.Total()
    }
  }

  class YatzyGame {
    const players: seq<PlayerState>
    var currentPlayerIndex: nat
    var currentRound: int
    const numRounds: int
    const dice: DiceSet
    const rollsPerTurn: int
    var isGameOver: bool
    /** `this.winner`: None until `endGame` has run. */
    var winner: Option<Winner>
    /** The players' engines. */
    ghost const Engines: set<YatzyEngine>

    /** Every player's engine is one of Engines, and no two players share one. */
    ghost predicate EnginesOwned() {
      (forall i :: 0 <= i < |players| ==> players[i].engine in Engines) &&
      (forall i, j :: 0 <= i < j < |players| ==> players[i].engine != players[j].engine)
    }

    /** The shape every operation keeps, whatever the round counter says. */
    ghost predicate WellFormed()
      reads this, Engines, dice, dice.dice, dice.Repr
    {
      1 <= |players| && currentPlayerIndex < |players| && 1 <= currentRound &&
      EnginesOwned() &&
      (forall e :: e in Engines ==> e.Valid()) &&
      dice.Valid()
    }

    /**
     * ...and: a finished game has a winner; an unfinished one with at least
     * one round configured is within its rounds.
     */
    ghost predicate Valid()
      reads this, Engines, dice, dice.dice, dice.Repr
    {
      WellFormed() &&
      (isGameOver ==> winner.Some?) &&
      (!isGameOver && 1 <= numRounds ==> currentRound <= numRounds)
    }

    constructor (numPlayers: nat, numRounds: int, numDice: int, rollsPerTurn: int)
      requires 1 <= numPlayers
      ensures Valid() && fresh(Engines) && fresh(dice) && fresh(dice.dice) && fresh(dice.Repr)
      ensures |players| == numPlayers
      ensures forall i :: 0 <= i < numPlayers ==> players[i].name == PlayerName(i)
      ensures forall i :: 0 <= i < numPlayers ==>
        players[i].engine.scoreTable == FreshTable() && !players[i].engine.upperBonusAwarded
      ensures currentPlayerIndex == 0 && currentRound == 1 && !isGameOver && winner.None?
      ensures this.numRounds == numRounds && this.rollsPerTurn == rollsPerTurn
      ensures dice.count == (if numDice < 1 then 1 else numDice) && dice.rollsThisTurn == 0
      ensures forall i :: 0 <= i < dice.count ==> dice.dice[i].value == 1 && !dice.dice[i].held
    {
      var made: seq<PlayerState> := [];
      ghost var engines: set<YatzyEngine> := {};
      while |made| < numPlayers
        invariant |made| <= numPlayers
        invariant forall i :: 0 <= i < |made| ==> made[i].name == PlayerName(i)
        invariant forall i :: 0 <= i < |made| ==> made[i].engine in engines
        invariant forall i, j :: 0 <= i < j < |made| ==> made[i].engine != made[j].engine
        invariant forall e :: e in engines ==> fresh(e) && e.Valid()
        invariant forall i :: 0 <= i < |made| ==>
          made[i].engine.scoreTable == FreshTable() && !made[i].engine.upperBonusAwarded
      {
        var p := new PlayerState(PlayerName(|made|));
        made := made + [p];
        engines := engines + {p.engine};
      }
      players := made;
      Engines := engines;
      currentPlayerIndex := 0;
      currentRound := 1;
      this.numRounds := numRounds;
      dice := new DiceSet(numDice);
      this.rollsPerTurn := rollsPerTurn;
      isGameOver := false;
      winner := None;
    }

    /** The players' totals, in player order. */
    function Totals(): (ts: seq<int>)
      reads Engines
      requires EnginesOwned()
      ensures |ts| == |players|
      ensures forall i :: 0 <= i < |players| ==> ts[i] == players[i].TotalScore()
    {
      seq(|players|, i requires 0 <= i < |players| reads Engines => players[i].TotalScore())
    }

    /**
     * The record `endGame` picks: the first player, in player order, with the
     * largest total; None without players.
     */
    function Standing(): (w: Option<Winner>)
      reads Engines
      requires EnginesOwned()
      ensures |players| == 0 ==> w.None?
      ensures |players| > 0 ==>
        exists k :: FirstLeader(Totals(), k) && w == Some(Winner(players[k].name, Totals()[k]))
    {
      var totals := Totals();
      if |players| == 0 then None
      else
        var k := FirstMax(totals);
        Some(Winner(players[k].name, totals[k]))
    }

    /** `get currentPlayer` */
    function CurrentPlayer(): (p: PlayerState)
      reads this
      requires currentPlayerIndex < |players|
      ensures p in players && p == players[currentPlayerIndex]
    {
      players[currentPlayerIndex]
    }

    /** `get diceValues` */
    function DiceValues(): (vs: seq<int>)
      reads this, dice, dice.dice, dice.Repr
      requires dice.Valid()
      ensures vs == dice.Values()
      ensures |vs| == dice.count && forall i :: 0 <= i < |vs| ==> IsFace(vs[i])
    {
      dice.Values()
    }

    /** The `forEach` of `startNewGame`: reset every player's engine. */
    method ResetEngines()
      requires forall e :: e in Engines ==> e.Valid()
      requires EnginesOwned()
      modifies Engines
      ensures forall e :: e in Engines ==> e.Valid()
      ensures forall i :: 0 <= i < |players| ==>
        players[i].engine.scoreTable == FreshTable() && !players[i].engine.upperBonusAwarded
    {
      var i := 0;
      while i < |players|
        invariant 0 <= i <= |players|
        invariant forall e :: e in Engines ==> e.Valid()
        invariant forall j :: 0 <= j < i ==>
          players[j].engine.scoreTable == FreshTable() && !players[j].engine.upperBonusAwarded
      {
        players[i].engine.ResetScores();
        i := i + 1;
      }
    }

    /** `startNewGame`: every engine reset, first player, round 1, dice turn reset; the winner is kept. */
    method StartNewGame()
      requires WellFormed()
      modifies this, Engines, dice, dice.Repr
      ensures Valid()
      ensures currentPlayerIndex == 0 && currentRound == 1 && !isGameOver && winner == old(winner)
      ensures forall i :: 0 <= i < |players| ==>
        players[i].engine.scoreTable == FreshTable() && !players[i].engine.upperBonusAwarded
      ensures dice.rollsThisTurn == 0
      ensures forall i :: 0 <= i < dice.count ==> !dice.dice[i].held && dice.dice[i].value == old(dice.dice[i].value)
    {
      dice.ResetTurn();
      ResetEngines();
      assert dice.Valid();
      currentPlayerIndex := 0;
      currentRound := 1;
      isGameOver := false;
    }

    /** `roll`: at the limit nothing changes; below it every unheld die is rolled and the roll counted. */
    method Roll() returns (vs: seq<int>)
      requires Valid()
      modifies dice, dice.Repr
      ensures Valid()
      ensures vs == dice.Values()
      ensures dice.rollsThisTurn == RollStep(old(dice.rollsThisTurn), rollsPerTurn)
      ensures forall i :: 0 <= i < dice.count ==> dice.dice[i].held == old(dice.dice[i].held)
      ensures forall i :: 0 <= i < dice.count && (old(dice.dice[i].held) || old(dice.rollsThisTurn) >= rollsPerTurn) ==>
        dice.dice[i].value == old(dice.dice[i].value)
    {
      if dice.rollsThisTurn >= rollsPerTurn {
        return dice.Values();
      }
      vs := dice.RollAll();
    }

    /**
     * `scoreSelection`: the current player's engine assigns the category to
     * the current dice; no other player, no counter and no die changes.
     */
    method ScoreSelection(category: string) returns (pts: int)
      requires Valid()
      modifies players[currentPlayerIndex].engine
      ensures Valid()
      ensures var e := players[currentPlayerIndex].engine;
        var hand := dice.Values();
        (!old(e.IsValidSelection(category, hand)) ==>
          pts == 0 && e.scoreTable == old(e.scoreTable) && e.upperBonusAwarded == old(e.upperBonusAwarded)) &&
        (old(e.IsValidSelection(category, hand)) ==>
          pts == Score(Parse(category).value, hand) &&
          e.scoreTable == old(e.scoreTable)[Parse(category).value := Entry(true, pts)])
      ensures forall i :: 0 <= i < |players| && i != currentPlayerIndex ==>
        players[i].engine.scoreTable == old(players[i].engine.scoreTable) &&
        players[i].engine.upperBonusAwarded == old(players[i].engine.upperBonusAwarded)
      ensures currentPlayerIndex == old(currentPlayerIndex) && currentRound == old(currentRound)
      ensures isGameOver == old(isGameOver) && winner == old(winner)
      ensures dice.rollsThisTurn == old(dice.rollsThisTurn) && dice.Values() == old(dice.Values())
    {
      var player := players[currentPlayerIndex];
      var values := dice.Values();
      assert player.engine in Engines;
      pts := player.engine.AssignScore(category, values);
      assert dice.Valid();
    }

    /**
     * `endGame`: the game is over and the winner is the first player, in
     * player order, with the largest total (None without players).
     */
    method EndGame() returns (w: Option<Winner>)
      requires EnginesOwned()
      modifies this
      ensures isGameOver && winner == w && w == Standing()
      ensures currentPlayerIndex == old(currentPlayerIndex) && currentRound == old(currentRound)
    {
      isGameOver := true;
      winner := Standing();
      return winner;
    }

    /**
     * The part of `endTurn` after the dice reset: pass to the next player,
     * and on wrapping to the first player start the next round, ending the
     * game when the rounds are used up.
     */
    method AdvanceTurn()
      requires Valid()
      modifies this
      ensures Valid()
      ensures currentPlayerIndex == (old(currentPlayerIndex) + 1) % |players|
      ensures currentRound == if currentPlayerIndex == 0 then old(currentRound) + 1 else old(currentRound)
      ensures isGameOver == (old(isGameOver) || (currentPlayerIndex == 0 && currentRound > numRounds))
      ensures currentPlayerIndex == 0 && currentRound > numRounds ==> winner == Standing()
      ensures !(currentPlayerIndex == 0 && currentRound > numRounds) ==> winner == old(winner)
    {
      NextIndex(currentPlayerIndex, |players|);
      var next := (currentPlayerIndex + 1) % |players|;
      if next == 0 {
        StartNextRound();
      } else {
        currentPlayerIndex := next;
      }
    }

    /** Back to the first player in the next round; past the last round, the game ends. */
    method StartNextRound()
      requires Valid()
      modifies this
      ensures Valid()
      ensures currentPlayerIndex == 0 && currentRound == old(currentRound) + 1
      ensures isGameOver == (old(isGameOver) || currentRound > numRounds)
      ensures currentRound > numRounds ==> winner == Standing()
      ensures currentRound <= numRounds ==> winner == old(winner)
    {
      currentPlayerIndex := 0;
      currentRound := currentRound + 1;
      if currentRound > numRounds {
        var _ := EndGame();
      }
    }

    /**
     * `endTurn`: reset the dice turn (no die held, values kept, no rolls
     * counted), then advance to the next player and round.
     */
    method EndTurn()
      requires Valid()
      modifies this, dice, dice.Repr
      ensures Valid()
      ensures currentPlayerIndex == (old(currentPlayerIndex) + 1) % |players|
      ensures currentRound == if currentPlayerIndex == 0 then old(currentRound) + 1 else old(currentRound)
      ensures isGameOver == (old(isGameOver) || (currentPlayerIndex == 0 && currentRound > numRounds))
      ensures currentPlayerIndex == 0 && currentRound > numRounds ==> winner == Standing()
      ensures !(currentPlayerIndex == 0 && currentRound > numRounds) ==> winner == old(winner)
      ensures dice.rollsThisTurn == 0 && dice.Values() == old(dice.Values())
      ensures forall i :: 0 <= i < dice.count ==> !dice.HeldFlags()[i]
    {
      dice.ResetTurn();
      AdvanceTurn();
    }
  }
}
