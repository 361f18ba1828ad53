/**
 * Worked hands and games, taken through the modelled operations as verified methods.
 */
module Scenarios {
  import opened Wrappers
  import opened Engine
  import opened Game

  /** The sum of a hand of five dice, written out. */
  lemma SumOfFive(h: seq<int>)
    requires |h| == 5
    ensures Sum(h) == h[0] + h[1] + h[2] + h[3] + h[4]
  {
    assert h[..4][..3] == h[..3] && h[..3][..2] == h[..2] && h[..2][..1] == h[..1];
    assert Sum(h[..1]) == h[0];
    assert Sum(h[..2]) == h[0] + h[1];
    assert Sum(h[..3]) == h[0] + h[1] + h[2];
    assert Sum(h[..4]) == h[0] + h[1] + h[2] + h[3];
  }

  /** Every category name starts with a capital letter. */
  lemma NameCapitalised(c: Category)
    ensures |Name(c)| > 0 && 'A' <= Name(c)[0] <= 'Z'
  {
  }

  /** [1,1,1,2,2] scores Ones 3 and Twos 4. */
  method ScoreSmallHandUpper() returns (ones: int, twos: int)
    ensures ones == 3 && twos == 4
  {
    var hand := [1, 1, 1, 2, 2];
    ParseName(Ones, "Ones");
    UpperScore(Ones, hand);
    assert multiset(hand)[1] == 3;
    ones := CalculateScore("Ones", hand);
    ParseName(Twos, "Twos");
    UpperScore(Twos, hand);
    assert multiset(hand)[2] == 2;
    twos := CalculateScore("Twos", hand);
  }

  /** [1,1,1,2,2] scores Chance 7. */
  method ScoreSmallHandChance() returns (chance: int)
    ensures chance == 7
  {
    var hand := [1, 1, 1, 2, 2];
    ParseName(Chance, "Chance");
    SumOfFive(hand);
    chance := CalculateScore("Chance", hand);
  }

  /** Names are matched exactly: "ones" is not a category and scores 0. */
  method ScoreUnknownName() returns (unknown: int)
    ensures unknown == 0
  {
    ParseName(Ones, "ones");
    forall d ensures Name(d) != "ones" {
      NameCapitalised(d);
    }
    unknown := CalculateScore("ones", [1, 1, 1, 2, 2]);
  }

  /** [6,6,6,6,6] scores Yatzy 50 and Four of a Kind 30. */
  method ScoreFiveSixes() returns (yatzy: int, fourKind: int)
    ensures yatzy == 50 && fourKind == 30
  {
    var hand := [6, 6, 6, 6, 6];
    ParseName(Yatzy, "Yatzy");
    yatzy := CalculateScore("Yatzy", hand);
    ParseName(FourOfAKind, "Four of a Kind");
    SumOfFive(hand);
    OfAKindScore(FourOfAKind, hand);
    assert multiset(hand)[6] == 5;
    fourKind := CalculateScore("Four of a Kind", hand);
  }

  /** A category is scored once: the second assignment scores 0 and the first score stays. */
  method ScoreCategoryTwice() returns (first: int, second: int, kept: int)
    ensures first == 3 && second == 0 && kept == 3
  {
    var engine := new YatzyEngine();
    var hand := [1, 1, 1, 2, 2];
    ParseName(Ones, "Ones");
    UpperScore(Ones, hand);
    assert multiset(hand)[1] == 3;
    first := engine.AssignScore("Ones", hand);
    second := engine.AssignScore("Ones", [5, 5, 5, 5, 5]);
    kept := engine.scoreTable[Ones].score;
  }

  /** How often a face occurs in a hand of five dice, written out. */
  lemma CountOfFive(h: seq<int>, f: int)
    requires |h| == 5
    ensures CountOf(h, f) ==
      (if h[0] == f then 1 else 0) + (if h[1] == f then 1 else 0) + (if h[2] == f then 1 else 0) +
      (if h[3] == f then 1 else 0) + (if h[4] == f then 1 else 0)
  {
    assert h[..4][..3] == h[..3] && h[..3][..2] == h[..2] && h[..2][..1] == h[..1];
    assert CountOf(h[..1], f) == (if h[0] == f then 1 else 0);
    assert CountOf(h[..2], f) == CountOf(h[..1], f) + (if h[1] == f then 1 else 0);
    assert CountOf(h[..3], f) == CountOf(h[..2], f) + (if h[2] == f then 1 else 0);
    assert CountOf(h[..4], f) == CountOf(h[..3], f) + (if h[3] == f then 1 else 0);
  }

  /** How often the counted face occurs in each hand of the first bonus example. */
  lemma HandCountsReaching()
    ensures CountOf([1, 1, 1, 2, 3], 1) == 3 && CountOf([2, 2, 2, 1, 3], 2) == 3
    ensures CountOf([3, 3, 3, 1, 2], 3) == 3 && CountOf([4, 4, 4, 1, 2], 4) == 3
    ensures CountOf([5, 5, 5, 1, 2], 5) == 3 && CountOf([6, 6, 6, 1, 2], 6) == 3
  {
    CountOfFive([1, 1, 1, 2, 3], 1);
    CountOfFive([2, 2, 2, 1, 3], 2);
    CountOfFive([3, 3, 3, 1, 2], 3);
    CountOfFive([4, 4, 4, 1, 2], 4);
    CountOfFive([5, 5, 5, 1, 2], 5);
    CountOfFive([6, 6, 6, 1, 2], 6);
  }

  /** How often the counted face occurs in each hand of the second bonus example. */
  lemma HandCountsShort()
    ensures CountOf([1, 1, 2, 2, 3], 1) == 2 && CountOf([2, 2, 2, 1, 3], 2) == 3
    ensures CountOf([3, 3, 3, 1, 2], 3) == 3 && CountOf([4, 4, 4, 1, 2], 4) == 3
    ensures CountOf([5, 5, 5, 1, 2], 5) == 3 && CountOf([6, 6, 6, 1, 2], 6) == 3
  {
    CountOfFive([1, 1, 2, 2, 3], 1);
    CountOfFive([2, 2, 2, 1, 3], 2);
    CountOfFive([3, 3, 3, 1, 2], 3);
    CountOfFive([4, 4, 4, 1, 2], 4);
    CountOfFive([5, 5, 5, 1, 2], 5);
    CountOfFive([6, 6, 6, 1, 2], 6);
  }

  /**
   * Assigns an upper category whose score is known, on an engine where it
   * and every upper category with a higher face are unused.
   */
  method AssignUpper(engine: YatzyEngine, c: Category, hand: seq<int>, expected: int)
    requires engine.Valid() && IsUpper(c) && |hand| > 0
    requires forall d :: IsUpper(d) && Face(d) >= Face(c) ==> !engine.scoreTable[d].used
    requires Face(c) * CountOf(hand, Face(c)) == expected
    modifies engine
    ensures engine.Valid()
    ensures engine.UpperSubtotal() == old(engine.UpperSubtotal()) + expected
    ensures forall d :: IsUpper(d) && Face(d) > Face(c) ==> !engine.scoreTable[d].used
  {
    ParseName(c, Name(c));
    ghost var before := engine.scoreTable;
    var _ := engine.AssignScore(Name(c), hand);
    UpperSumUpdate(before, c, Entry(true, expected));
  }

  /** A fresh engine with Ones, Twos and Threes scored from the given hands. */
  method ScoreOnesToThrees(h1: seq<int>, h2: seq<int>, h3: seq<int>, e1: int, e2: int, e3: int)
    returns (engine: YatzyEngine)
    requires |h1| > 0 && |h2| > 0 && |h3| > 0
    requires CountOf(h1, 1) == e1 && 2 * CountOf(h2, 2) == e2 && 3 * CountOf(h3, 3) == e3
    ensures fresh(engine) && engine.Valid()
    ensures engine.UpperSubtotal() == e1 + e2 + e3
    ensures forall d :: IsUpper(d) && Face(d) > 3 ==> !engine.scoreTable[d].used
  {
    engine := new YatzyEngine();
    UpperSumOfSix(engine.scoreTable);
    AssignUpper(engine, Ones, h1, e1);
    AssignUpper(engine, Twos, h2, e2);
    AssignUpper(engine, Threes, h3, e3);
  }

  /** Three of each face in the upper section reaches exactly 63 and earns the bonus of 35. */
  method BonusAtThreshold() returns (subtotal: int, bonus: int)
    ensures subtotal == 63 && bonus == 35
  {
    HandCountsReaching();
    var engine := ScoreOnesToThrees([1, 1, 1, 2, 3], [2, 2, 2, 1, 3], [3, 3, 3, 1, 2], 3, 6, 9);
    AssignUpper(engine, Fours, [4, 4, 4, 1, 2], 12);
    AssignUpper(engine, Fives, [5, 5, 5, 1, 2], 15);
    AssignUpper(engine, Sixes, [6, 6, 6, 1, 2], 18);
    subtotal := engine.UpperSubtotal();
    bonus := engine.UpperBonus();
  }

  /** One point short, 62, earns no bonus. */
  method BonusBelowThreshold() returns (subtotal: int, bonus: int)
    ensures subtotal == 62 && bonus == 0
  {
    HandCountsShort();
    var engine := ScoreOnesToThrees([1, 1, 2, 2, 3], [2, 2, 2, 1, 3], [3, 3, 3, 1, 2], 2, 6, 9);
    AssignUpper(engine, Fours, [4, 4, 4, 1, 2], 12);
    AssignUpper(engine, Fives, [5, 5, 5, 1, 2], 15);
    AssignUpper(engine, Sixes, [6, 6, 6, 1, 2], 18);
    subtotal := engine.UpperSubtotal();
    bonus := engine.UpperBonus();
  }

  /** Ends turns until the game of one player and 13 rounds is over. */
  method PlayOut(game: YatzyGame)
    requires game.Valid() && |game.players| == 1 && game.numRounds == 13
    requires game.currentPlayerIndex == 0 && game.currentRound == 1 && !game.isGameOver
    modifies game, game.dice, game.dice.Repr
    ensures game.Valid() && game.isGameOver && game.winner == game.Standing()
  {
    var turns := 0;
    while turns < 13
      invariant 0 <= turns <= 13
      invariant game.Valid()
      invariant game.currentPlayerIndex == 0 && game.currentRound == turns + 1
      invariant game.isGameOver <==> turns == 13
      invariant turns == 13 ==> game.winner == game.Standing()
    {
      game.EndTurn();
      turns := turns + 1;
    }
  }

  /** In a one-element list the first leader is position 0. */
  lemma SoleLeader(ts: seq<int>, k: int)
    requires |ts| == 1 && FirstLeader(ts, k)
    ensures k == 0
  {
  }

  /**
   * One player, 13 rounds: after a new game, 13 ends of turn finish the game
   * and the winner is that player with their total.
   */
  method SoloGame() returns (game: YatzyGame)
    ensures game.Valid() && |game.players| == 1
    ensures game.isGameOver
    ensures game.winner == Some(Winner("Player 1", game.players[0].TotalScore()))
  {
    game := new YatzyGame(1, 13, 5, 3);
    game.StartNewGame();
    PlayOut(game);
    assert Decimal(1) == [DigitChar(1)];
    assert DigitChar(1) == '1';
    assert game.players[0].name == PlayerName(0) == "Player 1";
    ghost var k :| FirstLeader(game.Totals(), k) &&
      game.winner == Some(Winner(game.players[k].name, game.Totals()[k]));
    SoleLeader(game.Totals(), k);
  }
}
