# Yatzy rules engine — a verified Dafny model

This project models the rules core of a browser Yatzy game (`portfolio2/client`). It covers three layers, one Dafny module each:

- **Dice** (`dice.dfy`, module `Dice`). A `Die` holds a face value, kept in 1..6 by a clamp, and a hold flag. A `DiceSet` owns a fixed array of dice and counts the rolls of the current turn. It rolls all dice, resets the turn, forces values, and merges externally supplied values into the unheld dice only.
- **Scoring engine** (`yatzy_engine.dfy`, module `Engine`).
  - Thirteen categories, as a datatype, with their exact names and a parser from names back to categories.
  - The score of a hand in each category: upper faces, Chance, fixed payouts, and Three and Four of a Kind.
  - One player's score table: a `used`/`score` entry per category, written at most once.
  - A one-way upper-section bonus: 35 points once the upper subtotal reaches 63.
  - The subtotals and the total.
- **Game session** (`yatzy_game.dfy`, module `Game`).
  - Players, each with their own engine, and one shared dice set.
  - The per-turn roll limit.
  - The turn and round state machine: the player index advances modulo the number of players, the round advances on wrap-around, and the game ends when the rounds run out.
  - The winner: the first player, in player order, with the largest total.

`scenarios.dfy` (module `Scenarios`) works example hands and a whole one-player game through the modelled operations, as verified methods. `wrappers.dfy` holds `Option`.

The source's mutable objects are Dafny classes with `modifies`/`reads` frames:

- `Die` and `DiceSet`, where the dice are an `array<Die>`.
- `YatzyEngine`, whose score table is a `map<Category, Entry>` field that the methods reassign.
- `PlayerState` and `YatzyGame`.

`Die`, `DiceSet`, `YatzyEngine` and `YatzyGame` each carry a `Valid()` invariant. `PlayerState` has none: it only pairs a name with an engine.

- `Die.Valid`: the die shows a face.
- `DiceSet.Valid`: there is at least one die, the dice are distinct, and every die is valid.
- `YatzyEngine.Valid`: every category has an entry, an unused entry scores 0, and upper scores are never negative. The bonus flag is set exactly when the upper subtotal is at least 63.
- `YatzyGame.Valid`: the player index is in range and the round is at least 1. Every engine and the dice are valid, and a finished game has a winner.

Every constructor establishes its class's invariant, and every method that requires it also ensures it. Four methods neither require it nor ensure it outright; each states something narrower:

- `Die.ToggleHold` ensures that a valid die stays valid.
- `YatzyEngine.UpdateUpperBonusIfNeeded` runs on an engine whose flag may lag behind a table that was just written. It ensures the engine is valid again whenever the table is valid and the old flag was not set wrongly.
- `YatzyGame.EndGame` needs only that each player owns their engine. It leaves the invariant to its caller, `StartNextRound`, which ensures it.
- `YatzyGame.ResetEngines` ensures every engine stays valid and leaves the game invariant to `StartNewGame`.

Modelling choices:

- A JavaScript input value (the argument of `setValue`, an entry of a server roll) is an `Option<int>`. `Some(n)` is a finite integer; `None` is anything that is not a finite number.
- The face drawn from `Math.random` is a nondeterministic choice of a face (`:|`). Every contract holds whatever face is drawn.
- The winner, picked in the source by a stable descending sort, is specified directly as the first maximal total in player order (`FirstMax`, `FirstLeader`).

Behaviours of the code worth knowing; except where noted, the model follows them as written:

- **Clamping.** `#clamp` (`dice.js:28-32`) maps anything below 1, above 6 or not finite to 1; it does not round to the nearest face. It also truncates fractions, which the model does not cover (see "## Left out").
- **The winner on a new game.** `startNewGame` (`yatzyGame.js:45-51`) leaves `winner` as it was.
- **The round bound.** The round stays within `1..numRounds` while a game is active only when `numRounds >= 1`. With `numRounds < 1`, a game starts at round 1 and is not over until the first wrap-around. The invariant `YatzyGame.Valid` states the bound under that condition.

## Model

| member | source | states |
|---|---|---|
| Dice.Clamp | portfolio2/client/dice.js:28-32 | the result is always a face in 1..6; a finite integer already in 1..6 is kept; anything non-finite, below 1 or above 6 becomes 1 |
| Dice.Die.constructor | portfolio2/client/dice.js:6-9 | a new die shows the clamp of its initial value and is not held |
| Dice.Die.Roll | portfolio2/client/dice.js:13-17 | a held die keeps its value and returns it; an unheld die gets some face in 1..6; the hold flag never changes and the returned value is the die's value |
| Dice.Die.SetValue | portfolio2/client/dice.js:21-23 | the die shows the clamp of the argument; the hold flag is untouched |
| Dice.Die.ToggleHold | portfolio2/client/dice.js:26 | the hold flag flips, the value is unchanged, and a valid die stays valid |
| Dice.DiceSet.constructor | portfolio2/client/dice.js:37-42 | max(1, count) distinct dice, each showing 1 and unheld, with the roll counter at 0 |
| Dice.DiceSet.Values | portfolio2/client/dice.js:57 | one value per die, in die order, each a face |
| Dice.DiceSet.HeldFlags | portfolio2/client/dice.js:65-67 | one hold flag per die, in die order |
| Dice.DiceSet.RollAll | portfolio2/client/dice.js:44-48 | the counter goes up by exactly 1; every held die keeps its value; no hold flag changes; every die stays a face; the result equals the values afterwards |
| Dice.DiceSet.ResetTurn | portfolio2/client/dice.js:50-53 | the counter is 0, no die is held, and no die value changes |
| Dice.DiceSet.SetValues | portfolio2/client/dice.js:60-62 | the first min(len, count) dice show the clamp of the given values, held or not; the other dice and every hold flag are unchanged |
| Dice.DiceSet.ApplyServerRoll | portfolio2/client/dice.js:71-81 | held dice are untouched; an unheld die with a finite entry shows its clamp; any other unheld die shows some face; entries beyond count are ignored; the counter goes up by exactly 1; the result equals the values afterwards |
| Engine.Find | portfolio2/client/yatzyEngine.js:4-18 | a category is found only if its name is the string; none is found only if no listed name is the string |
| Engine.NameInjective | portfolio2/client/yatzyEngine.js:4-18 | no two categories share a name |
| Engine.ParseName | portfolio2/client/yatzyEngine.js:4-18 | parsing a category's name gives that category back; a string parses exactly when it is one of the 13 names, and then to the only category with that name |
| Engine.CategoryListed | portfolio2/client/yatzyEngine.js:105-120 | every category is listed, and it is in the upper list exactly when it is an upper category and in the lower list otherwise |
| Engine.IsKnownCategory | portfolio2/client/yatzyEngine.js:136 | true exactly when the string is the name of some category |
| Engine.CountsByFace | portfolio2/client/yatzyEngine.js:28-32 | the map has exactly the faces that occur in the hand, each mapped to its number of occurrences |
| Engine.Sum | portfolio2/client/yatzyEngine.js:33 | the sum of a hand of n faces lies between n and 6n |
| Engine.CountOfIsMultiplicity | portfolio2/client/yatzyEngine.js:60-65 | the filtered count of a face is its multiplicity in the hand |
| Engine.UpperScore | portfolio2/client/yatzyEngine.js:60-65 | an upper category with face f scores f times the number of dice showing f, between 0 and 6 per die |
| Engine.ChanceIsUpperTotal | portfolio2/client/yatzyEngine.js:68 | for a hand of faces, Chance (the sum) equals the six upper scores added up |
| Engine.FixedPayout | portfolio2/client/yatzyEngine.js:70-75 | Full House, Small Straight, Large Straight and Yatzy score 25, 30, 40 and 50 whatever the dice |
| Engine.OfAKindScore | portfolio2/client/yatzyEngine.js:78-84 | Three (Four) of a Kind scores the sum of the hand when some face occurs at least 3 (4) times, and 0 otherwise |
| Engine.SomeFaceReaches | portfolio2/client/yatzyEngine.js:80-82 | the scan of the face counts answers exactly whether some face occurs at least `need` times |
| Engine.CalculateScore | portfolio2/client/yatzyEngine.js:54-89 | an unknown name scores 0; a known name scores the hand by its category's rule |
| Engine.SumScoresAppend | portfolio2/client/yatzyEngine.js:123 | the sum over two category lists joined is the sum of their sums, so the total adds the upper and lower sums |
| Engine.SumScoresNonnegative | portfolio2/client/yatzyEngine.js:105-111 | entries that are all non-negative sum to a non-negative value |
| Engine.SumScoresFrame | portfolio2/client/yatzyEngine.js:105-111 | rewriting an entry outside the listed categories leaves their sum unchanged |
| Engine.SumScoresMonotone | portfolio2/client/yatzyEngine.js:105-111 | raising one entry's score never lowers the sum |
| Engine.SumScoresZero | portfolio2/client/yatzyEngine.js:125-128 | a table whose listed entries all score 0 sums to 0 |
| Engine.UpperSumNonnegative | portfolio2/client/yatzyEngine.js:105-111 | with non-negative upper entries, the upper subtotal is non-negative |
| Engine.UpperSumOfSix | portfolio2/client/yatzyEngine.js:105-111 | the upper subtotal is the six upper entries added up, a missing entry counting 0 |
| Engine.UpperSumUpdate | portfolio2/client/yatzyEngine.js:105-111 | rewriting one upper entry moves the upper subtotal by exactly the change in that entry's score |
| Engine.FreshTable | portfolio2/client/yatzyEngine.js:38-40 | every category has an entry, unused with score 0 |
| Engine.YatzyEngine.constructor | portfolio2/client/yatzyEngine.js:36-42 | a valid engine with every entry unused at 0 and no bonus |
| Engine.YatzyEngine.IsValidSelection | portfolio2/client/yatzyEngine.js:45-51 | true exactly when the hand is non-empty and the string names a category whose entry is not used |
| Engine.YatzyEngine.UpperSubtotal | portfolio2/client/yatzyEngine.js:105-111 | never negative while the upper entries are not |
| Engine.YatzyEngine.UpperBonus | portfolio2/client/yatzyEngine.js:113 | 35 or 0; on a valid engine, 35 exactly when the upper subtotal is at least 63 |
| Engine.YatzyEngine.Total | portfolio2/client/yatzyEngine.js:123 | the total is the sum of every entry of the table plus the bonus |
| Engine.YatzyEngine.UpdateUpperBonusIfNeeded | portfolio2/client/yatzyEngine.js:131-135 | the table is untouched; the flag afterwards is the old flag or whether the upper subtotal is at least 63 (it is never cleared); from a valid table whose flag was not set wrongly, the engine is valid again |
| Engine.YatzyEngine.AssignScore | portfolio2/client/yatzyEngine.js:92-102 | an invalid selection returns 0 and changes nothing; a valid one returns the category's score, marks that entry used with that score and changes no other entry; used entries never change; the flag never goes from set to clear; the engine invariant (flag iff upper subtotal at least 63) is kept |
| Engine.YatzyEngine.ResetScores | portfolio2/client/yatzyEngine.js:125-128 | every entry is unused with score 0, the flag is cleared, and the engine is valid |
| Game.Decimal | portfolio2/client/yatzyGame.js:33 | the decimal rendering of a number is a non-empty string of digits |
| Game.DecimalRoundTrip | portfolio2/client/yatzyGame.js:33 | reading the digits of the rendering back gives the number |
| Game.PlayerName | portfolio2/client/yatzyGame.js:33 | a player's name is "Player " followed by the decimal digits of their 1-based number, which `DecimalRoundTrip` reads back |
| Game.PlayerNamesDistinct | portfolio2/client/yatzyGame.js:33 | players at different positions get different names |
| Game.FirstMax | portfolio2/client/yatzyGame.js:87-89 | the chosen position holds the largest total, and every earlier position holds a strictly smaller one |
| Game.FirstLeaderUnique | portfolio2/client/yatzyGame.js:88-89 | at most one position is the first one with the largest total, so the winner is determined |
| Game.NextIndex | portfolio2/client/yatzyGame.js:73 | the next player index stays in 0..N-1 and wraps to 0 only from the last player |
| Game.RollStepsCapped | portfolio2/client/yatzyGame.js:54-57 | from a counter at or below the limit, n calls of roll leave min(counter + n, limit), never more than the limit |
| Game.PlayerState.constructor | portfolio2/client/yatzyGame.js:12-15 | the player has the given name and a fresh valid engine with an empty table and no bonus |
| Game.PlayerState.TotalScore | portfolio2/client/yatzyGame.js:17 | the player's total is every entry of their table plus their bonus |
| Game.YatzyGame.constructor | portfolio2/client/yatzyGame.js:32-42 | numPlayers players named "Player 1", "Player 2", ..., each with an empty table; index 0, round 1, not over, no winner; max(1, numDice) dice, each showing 1 and unheld, with the counter at 0; the configuration is stored |
| Game.YatzyGame.Totals | portfolio2/client/yatzyGame.js:87 | one total per player, in player order, each the player's total score |
| Game.YatzyGame.Standing | portfolio2/client/yatzyGame.js:85-91 | with players, the record of the first player in player order with the largest total, and that total; none without players |
| Game.YatzyGame.CurrentPlayer | portfolio2/client/yatzyGame.js:94 | the player at the current index |
| Game.YatzyGame.DiceValues | portfolio2/client/yatzyGame.js:95 | the getter returns the dice set's values, one face per die in die order |
| Game.YatzyGame.ResetEngines | portfolio2/client/yatzyGame.js:46 | every player's engine ends unused at 0 with no bonus, and stays valid |
| Game.YatzyGame.StartNewGame | portfolio2/client/yatzyGame.js:45-51 | every engine is reset; index 0, round 1, not over; the winner is kept; the dice counter is 0, no die is held and no die value changes |
| Game.YatzyGame.Roll | portfolio2/client/yatzyGame.js:54-57 | at or above the limit, the counter and every die are unchanged and the values are returned; below it, the counter goes up by 1 and only unheld dice may change |
| Game.YatzyGame.ScoreSelection | portfolio2/client/yatzyGame.js:60-65 | the current player's engine assigns the category to the current dice exactly as AssignScore does; no other player's table, no counter, no flag and no die changes |
| Game.YatzyGame.EndGame | portfolio2/client/yatzyGame.js:85-91 | the game is over, and the stored and returned winner is the standing (the first maximal player and their total) |
| Game.YatzyGame.AdvanceTurn | portfolio2/client/yatzyGame.js:72-81 | index := (index + 1) mod N; the round goes up exactly when the index wraps to 0; the game becomes over exactly when that makes the round exceed numRounds, and then the winner is the standing |
| Game.YatzyGame.StartNextRound | portfolio2/client/yatzyGame.js:76-81 | back to the first player with the round up by one; the game becomes over, with the standing as winner, exactly when the round exceeds numRounds; otherwise the winner is unchanged; the invariant is kept |
| Game.YatzyGame.EndTurn | portfolio2/client/yatzyGame.js:68-82 | the dice counter is 0 with no die held and values kept; then the index, round and game-over transitions of AdvanceTurn; the invariant is kept |
| Scenarios.SumOfFive | portfolio2/client/yatzyEngine.js:33 | the sum of a five-dice hand is its five values added up |
| Scenarios.NameCapitalised | portfolio2/client/yatzyEngine.js:4-18 | every category name starts with a capital letter |
| Scenarios.ScoreSmallHandUpper | portfolio2/client/yatzyEngine.js:60-61 | [1,1,1,2,2] scores Ones 3 and Twos 4 |
| Scenarios.ScoreSmallHandChance | portfolio2/client/yatzyEngine.js:68 | [1,1,1,2,2] scores Chance 7 |
| Scenarios.ScoreUnknownName | portfolio2/client/yatzyEngine.js:55 | names match exactly: "ones" is unknown and scores 0 |
| Scenarios.ScoreFiveSixes | portfolio2/client/yatzyEngine.js:71-84 | [6,6,6,6,6] scores Yatzy 50 and Four of a Kind 30 |
| Scenarios.ScoreCategoryTwice | portfolio2/client/yatzyEngine.js:92-93 | a second assignment to a used category returns 0 and the first score stays |
| Scenarios.CountOfFive | portfolio2/client/yatzyEngine.js:60-65 | the count of a face in a five-dice hand, written out die by die |
| Scenarios.HandCountsReaching | portfolio2/client/yatzyEngine.js:60-65 | each hand of the 63-point example shows its counted face three times |
| Scenarios.HandCountsShort | portfolio2/client/yatzyEngine.js:60-65 | each hand of the 62-point example shows its counted face the expected number of times |
| Scenarios.AssignUpper | portfolio2/client/yatzyEngine.js:92-111 | assigning an unused upper category raises the upper subtotal by its score and leaves the higher upper categories unused |
| Scenarios.ScoreOnesToThrees | portfolio2/client/yatzyEngine.js:92-111 | scoring Ones, Twos and Threes on a fresh engine gives their three scores as the upper subtotal |
| Scenarios.BonusAtThreshold | portfolio2/client/yatzyEngine.js:131-135 | an upper subtotal of exactly 63 earns the bonus of 35 |
| Scenarios.BonusBelowThreshold | portfolio2/client/yatzyEngine.js:131-135 | an upper subtotal of 62 earns no bonus |
| Scenarios.PlayOut | portfolio2/client/yatzyGame.js:68-82 | with one player and 13 rounds, 13 ends of turn from round 1 end the game with the standing as winner |
| Scenarios.SoleLeader | portfolio2/client/yatzyGame.js:88-89 | with one player, that player is the first leader |
| Scenarios.SoloGame | portfolio2/client/yatzyGame.js:85-91 | after a new one-player, 13-round game and 13 ends of turn, the game is over and the winner is "Player 1" with their total |

## Left out

- `portfolio2/client/app.js`: DOM rendering, event handlers, prompts and the `fetch` of server rolls. Its inline merge of server values repeats `DiceSet.applyServerRoll`, which is modelled.
- `portfolio3/server/server.js`: HTTP transport and random-number generation.
- `Math.random`: a drawn face is a nondeterministic choice in 1..6, not a random number generator. No distribution is modelled.
- Dice.DiceSet.SetValues: sparse arrays are not modelled. In JavaScript, `forEach` skips the holes of a sparse `vals`, so those dice keep their value. In the model, every position up to the length is an entry, and a missing one is `None`, which sets the die to 1.
- Fractions and coercion: JavaScript number coercion (`Number(v)`, strings, booleans), floating point, and `Math.trunc` of fractional values in `#clamp` and in the `DiceSet` constructor's count. Inputs are integers or `None`.
- Dice.DiceSet.ApplyServerRoll: a non-array argument is `None`, treated as the empty list. A non-number entry (a numeric string, say) is `None` and falls back to a drawn face, as `Number.isFinite` does without coercion.
- Engine.YatzyEngine.IsValidSelection: a hand that is not an array, and the `diceValues ?? []` default of `calculateScore`, are not modelled. Hands are always sequences of integers.
- Game.YatzyGame.constructor: requires at least one player. With zero players, `endTurn` sets the player index to `NaN` (`(i + 1) % 0`). `NaN === 0` never holds, so the round never advances and the game never ends. `scoreSelection` throws a `TypeError` on the missing player, and `currentPlayer` is `undefined`.
- Default arguments: `new Die(value = 1)`, `new PlayerState(name = "Player 1")` and the game options `{numPlayers = 1, numRounds = 13, numDice = 5, rollsPerTurn = 3}` have no defaults in the model. Callers pass every argument explicitly.
- Game.YatzyGame.EndGame: the source's stable sort is not modelled. The winner is specified as the first player in player order with the largest total, which is what a stable descending sort puts first.
- Game.YatzyGame.Standing: an absent winner before the first `endGame` (`undefined`) and the `null` of an empty player list are both `None`.
- The `categories` getter of the game only lists `Engine.Name` over `Engine.AllCategories`. It is not a separate member.
- Engine.SomeFaceReaches: scans the counts in the order their faces first occur in the hand, which is the order a `Map` built by `countsByFace` iterates in. The answer does not depend on that order.
- Engine.YatzyEngine.LowerSubtotal: no contract of its own. `Total`'s contract covers it through `SumScoresAppend`.
- Objects shared by aliasing outside the game, such as a caller holding a die and changing it between calls, are excluded by the `Valid` footprints.
