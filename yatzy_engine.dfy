/**
 * Scoring engine: the 13 categories, the score of a hand in a category, and
 * one player's score table with its one-way upper-section bonus.
 *
 * The source keys its table and its dispatch by category name; here a
 * category is a datatype value and Parse maps a name back to it, so the
 * "unknown category" path is kept.
 */
module Engine {
  import opened Wrappers

  datatype Category =
    | Ones | Twos | Threes | Fours | Fives | Sixes
    | ThreeOfAKind | FourOfAKind | FullHouse | SmallStraight | LargeStraight | Chance | Yatzy

  /** The categories in declaration order. */
  const AllCategories: seq<Category> :=
    [Ones, Twos, Threes, Fours, Fives, Sixes,
     ThreeOfAKind, FourOfAKind, FullHouse, SmallStraight, LargeStraight, Chance, Yatzy]

  /** The upper section: the six single-face categories. */
  const UpperCategories: seq<Category> := [Ones, Twos, Threes, Fours, Fives, Sixes]

  /** Every other category, in declaration order. */
  const LowerCategories: seq<Category> :=
    [ThreeOfAKind, FourOfAKind, FullHouse, SmallStraight, LargeStraight, Chance, Yatzy]

  const BonusThreshold: int := 63
  const BonusPoints: int := 35

  /** The fixed payouts, granted whatever the dice show. */
  const FixedScores: map<Category, int> :=
    map[FullHouse := 25, SmallStraight := 30, LargeStraight := 40, Yatzy := 50]

  function Name(c: Category): string {
    match c
    case Ones => "Ones"
    case Twos => "Twos"
    case Threes => "Threes"
    case Fours => "Fours"
    case Fives => "Fives"
    case Sixes => "Sixes"
    case ThreeOfAKind => "Three of a Kind"
    case FourOfAKind => "Four of a Kind"
    case FullHouse => "Full House"
    case SmallStraight => "Small Straight"
    case LargeStraight => "Large Straight"
    case Chance => "Chance"
    case Yatzy => "Yatzy"
  }

  predicate IsUpper(c: Category) {
    c.Ones? || c.Twos? || c.Threes? || c.Fours? || c.Fives? || c.Sixes?
  }

  /** The face an upper category counts. */
  function Face(c: Category): (f: int)
    requires IsUpper(c)
  {
    match c
    case Ones => 1
    case Twos => 2
    case Threes => 3
    case Fours => 4
    case Fives => 5
    case Sixes => 6
  }

  /** The first category in `cats` whose name is `s`. */
  function Find(s: string, cats: seq<Category>): (r: Option<Category>)
    ensures r.Some? ==> r.value in cats && Name(r.value) == s
    ensures r.None? ==> forall c :: c in cats ==> Name(c) != s
  {
    if |cats| == 0 then None
    else if Name(cats[0]) == s then Some(cats[0])
    else Find(s, cats[1..])
  }

  /** The category with the given name, if the name is one of the 13. */
  function Parse(s: string): Option<Category> {
    Find(s, AllCategories)
  }

  lemma CategoryListed(c: Category)
    ensures c in AllCategories
    ensures IsUpper(c) <==> c in UpperCategories
    ensures !IsUpper(c) <==> c in LowerCategories
  {
  }

  lemma {:induction false} NameInjective(c: Category, d: Category)
    requires Name(c) == Name(d)
    ensures c == d
  {
    match c
    case Ones => assert Name(c)[0] == 'O';
    case Twos => assert Name(c)[..2] == "Tw";
    case Threes => assert Name(c)[..3] == "Thr" && |Name(c)| == 6;
    case Fours => assert Name(c)[..3] == "Fou" && |Name(c)| == 5;
    case Fives => assert Name(c)[..2] == "Fi";
    case Sixes => assert Name(c)[0] == 'S' && |Name(c)| == 5;
    case ThreeOfAKind => assert Name(c)[..3] == "Thr" && |Name(c)| == 15;
    case FourOfAKind => assert Name(c)[..3] == "Fou" && |Name(c)| == 14;
    case FullHouse => assert Name(c)[..2] == "Fu";
    case SmallStraight => assert Name(c)[..2] == "Sm";
    case LargeStraight => assert Name(c)[0] == 'L';
    case Chance => assert Name(c)[0] == 'C';
    case Yatzy => assert Name(c)[0] == 'Y';
  }

  /** Parse inverts Name, and accepts exactly the 13 names. */
  lemma {:induction false} ParseName(c: Category, s: string)
    ensures Parse(Name(c)) == Some(c)
    ensures Parse(s).Some? <==> exists d :: Name(d) == s
    ensures Parse(s).Some? ==> forall d :: Name(d) == s ==> d == Parse(s).value
  {
    CategoryListed(c);
    var r := Parse(Name(c));
    NameInjective(r.value, c);
    if exists d :: Name(d) == s {
      var d :| Name(d) == s;
      CategoryListed(d);
    }
    if Parse(s).Some? {
      forall d | Name(d) == s ensures d == Parse(s).value {
        NameInjective(d, Parse(s).value);
      }
    }
  }

  /** `_isKnownCategory`: the name is one of the 13. */
  function IsKnownCategory(s: string): (b: bool)
    ensures b <==> exists c :: Name(c) == s
  {
    ParseName(Ones, s);
    Parse(s).Some?
  }

  // ---------------------------------------------------------------- hands

  /** How many dice of the hand show `f` (the source's filter(...).length). */
  function CountOf(hand: seq<int>, f: int): nat {
    if |hand| == 0 then 0
    else CountOf(hand[..|hand| - 1], f) + (if hand[|hand| - 1] == f then 1 else 0)
  }

  /** The sum of the hand (the source's reduce). */
  function Sum(hand: seq<int>): (r: int)
    ensures (forall i :: 0 <= i < |hand| ==> 1 <= hand[i] <= 6) ==> |hand| <= r <= 6 * |hand|
  {
    if |hand| == 0 then 0 else Sum(hand[..|hand| - 1]) + hand[|hand| - 1]
  }

  /** Some face occurs at least `need` times. */
  predicate HasOfAKind(hand: seq<int>, need: int) {
    exists i :: 0 <= i < |hand| && CountOf(hand, hand[i]) >= need
  }

  /** `calculateScore` for a known category. */
  function Score(c: Category, hand: seq<int>): int {
    if IsUpper(c) then Face(c) * CountOf(hand, Face(c))
    else if c in FixedScores then FixedScores[c]
    else if c == Chance then Sum(hand)
    else if HasOfAKind(hand, if c == ThreeOfAKind then 3 else 4) then Sum(hand)
    else 0
  }

  /** `calculateScore` on a category name: an unknown name scores 0. */
  function ScoreByName(category: string, hand: seq<int>): int {
    match Parse(category)
    case None => 0
    case Some(c) => Score(c, hand)
  }

  /** CountOf is the multiplicity of the face in the hand. */
  lemma {:induction false} CountOfIsMultiplicity(hand: seq<int>, f: int)
    ensures CountOf(hand, f) == multiset(hand)[f]
  {
    if |hand| > 0 {
      var init := hand[..|hand| - 1];
      CountOfIsMultiplicity(init, f);
      assert hand == init + [hand[|hand| - 1]];
    }
  }

  /** Upper category with face f: f times the number of dice showing f; never negative. */
  lemma UpperScore(c: Category, hand: seq<int>)
    requires IsUpper(c)
    ensures Score(c, hand) == Face(c) * multiset(hand)[Face(c)]
    ensures 0 <= Score(c, hand) <= 6 * |hand|
  {
    CountOfIsMultiplicity(hand, Face(c));
    assert multiset(hand)[Face(c)] <= |multiset(hand)|;
  }

  /** Three/Four of a Kind score the whole hand exactly when some face occurs 3 (resp. 4) times. */
  lemma OfAKindScore(c: Category, hand: seq<int>)
    requires c == ThreeOfAKind || c == FourOfAKind
    ensures var need := if c == ThreeOfAKind then 3 else 4;
      Score(c, hand) == if exists f :: multiset(hand)[f] >= need then Sum(hand) else 0
  {
    var need := if c == ThreeOfAKind then 3 else 4;
    if exists f :: multiset(hand)[f] >= need {
      var f :| multiset(hand)[f] >= need;
      assert f in multiset(hand);
      var i :| 0 <= i < |hand| && hand[i] == f;
      CountOfIsMultiplicity(hand, f);
      assert HasOfAKind(hand, need);
    } else if HasOfAKind(hand, need) {
      var i :| 0 <= i < |hand| && CountOf(hand, hand[i]) >= need;
      CountOfIsMultiplicity(hand, hand[i]);
      assert false;
    }
  }

  /** The fixed payouts do not look at the dice. */
  lemma FixedPayout(c: Category, hand: seq<int>, other: seq<int>)
    requires c in {FullHouse, SmallStraight, LargeStraight, Yatzy}
    ensures Score(c, hand) == Score(c, other) == FixedScores[c]
    ensures Score(c, hand) == match c
      case FullHouse => 25 case SmallStraight => 30 case LargeStraight => 40 case _ => 50
  {
  }

  /** The six upper scores of a hand, added up. */
  function UpperScoresOf(hand: seq<int>): int {
    Score(Ones, hand) + Score(Twos, hand) + Score(Threes, hand) +
    Score(Fours, hand) + Score(Fives, hand) + Score(Sixes, hand)
  }

  /** For a hand of faces, Chance equals the six upper scores added up. */
  lemma {:induction false} ChanceIsUpperTotal(hand: seq<int>)
    requires forall i :: 0 <= i < |hand| ==> 1 <= hand[i] <= 6
    ensures Score(Chance, hand) == UpperScoresOf(hand)
  {
    if |hand| > 0 {
      ChanceIsUpperTotal(hand[..|hand| - 1]);
    }
  }

  /** `countsByFace`: a map from each face in the hand to how often it occurs. */
  method CountsByFace(hand: seq<int>) returns (counts: map<int, nat>)
    ensures forall v :: v in counts <==> v in hand
    ensures forall v :: v in counts ==> counts[v] == CountOf(hand, v)
  {
    counts := map[];
    var i := 0;
    while i < |hand|
      invariant 0 <= i <= |hand|
      invariant forall v :: v in counts <==> v in hand[..i]
      invariant forall v :: v in counts ==> counts[v] == CountOf(hand[..i], v)
    {
      var v := hand[i];
      assert hand[..i + 1][..i] == hand[..i];
      if v !in counts {
        CountOfIsMultiplicity(hand[..i], v);
      }
      counts := counts[v := (if v in counts then counts[v] else 0) + 1];
      i := i + 1;
    }
    assert hand[..i] == hand;
  }

  /**
   * The Three/Four of a Kind test of `calculateScore`: count the faces, then
   * ask whether some count reaches `need`.
   */
  method SomeFaceReaches(hand: seq<int>, need: int) returns (ok: bool)
    ensures ok == HasOfAKind(hand, need)
  {
    var counts := CountsByFace(hand);
    // A Map iterates in insertion order, so its counts come in the order in
    // which their faces first occur in the hand.
    ok := false;
    var i := 0;
    while i < |hand| && !ok
      invariant 0 <= i <= |hand|
      invariant ok ==> HasOfAKind(hand, need)
      invariant !ok ==> forall j :: 0 <= j < i ==> CountOf(hand, hand[j]) < need
    {
      assert hand[i] in hand;
      ok := counts[hand[i]] >= need;
      i := i + 1;
    }
  }

  /** `calculateScore`: the score of the hand in the named category. */
  method CalculateScore(category: string, hand: seq<int>) returns (r: int)
    ensures r == ScoreByName(category, hand)
  {
    var parsed := Parse(category);
    if parsed.None? {
      return 0;
    }
    var c := parsed.value;
    if IsUpper(c) {
      r := Face(c) * CountOf(hand, Face(c));
    } else if c == Chance {
      r := Sum(hand);
    } else if c in FixedScores {
      r := FixedScores[c];
    } else {
      var ok := SomeFaceReaches(hand, if c == ThreeOfAKind then 3 else 4);
      r := if ok then Sum(hand) else 0;
    }
  }

  // ---------------------------------------------------------- score table

  datatype Entry = Entry(used: bool, score: int)

  /** `scoreTable.get(cat)?.score ?? 0` */
  function ScoreIn(table: map<Category, Entry>, c: Category): int {
    if c in table then table[c].score else 0
  }

  /** The scores of the listed categories, added up. */
  function SumScores(table: map<Category, Entry>, cats: seq<Category>): int {
    if |cats| == 0 then 0
    else SumScores(table, cats[..|cats| - 1]) + ScoreIn(table, cats[|cats| - 1])
  }

  lemma {:induction false} SumScoresAppend(table: map<Category, Entry>, a: seq<Category>, b: seq<Category>)
    ensures SumScores(table, a + b) == SumScores(table, a) + SumScores(table, b)
  {
    if |b| > 0 {
      var init := b[..|b| - 1];
      assert (a + b)[..|a + b| - 1] == a + init;
      SumScoresAppend(table, a, init);
    } else {
      assert a + b == a;
    }
  }

  lemma {:induction false} SumScoresNonnegative(table: map<Category, Entry>, cats: seq<Category>)
    requires forall c :: c in cats ==> ScoreIn(table, c) >= 0
    ensures SumScores(table, cats) >= 0
  {
    if |cats| > 0 {
      var init := cats[..|cats| - 1];
      assert forall c :: c in init ==> c in cats;
      SumScoresNonnegative(table, init);
    }
  }

  /** Changing an entry outside the listed categories leaves their sum alone. */
  lemma {:induction false} SumScoresFrame(table: map<Category, Entry>, cats: seq<Category>, c: Category, e: Entry)
    requires c !in cats
    ensures SumScores(table[c := e], cats) == SumScores(table, cats)
  {
    if |cats| > 0 {
      var init := cats[..|cats| - 1];
      assert forall d :: d in init ==> d in cats;
      SumScoresFrame(table, init, c, e);
    }
  }

  /** Raising one entry's score never lowers the sum. */
  lemma {:induction false} SumScoresMonotone(table: map<Category, Entry>, cats: seq<Category>, c: Category, e: Entry)
    requires ScoreIn(table, c) <= e.score
    ensures SumScores(table, cats) <= SumScores(table[c := e], cats)
  {
    if |cats| > 0 {
      SumScoresMonotone(table, cats[..|cats| - 1], c, e);
    }
  }

  /** A table whose listed entries all score 0 sums to 0. */
  lemma {:induction false} SumScoresZero(table: map<Category, Entry>, cats: seq<Category>)
    requires forall c :: c in cats ==> ScoreIn(table, c) == 0
    ensures SumScores(table, cats) == 0
  {
    if |cats| > 0 {
      var init := cats[..|cats| - 1];
      assert forall c :: c in init ==> c in cats;
      SumScoresZero(table, init);
    }
  }

  lemma UpperSumNonnegative(table: map<Category, Entry>)
    ensures (forall c :: c in table && IsUpper(c) ==> table[c].score >= 0) ==>
      SumScores(table, UpperCategories) >= 0
  {
    if forall c :: c in table && IsUpper(c) ==> table[c].score >= 0 {
      forall c | c in UpperCategories ensures ScoreIn(table, c) >= 0 {
        CategoryListed(c);
      }
      SumScoresNonnegative(table, UpperCategories);
    }
  }

  /** The upper subtotal of a table is its six upper entries added up. */
  lemma UpperSumOfSix(t: map<Category, Entry>)
    ensures SumScores(t, UpperCategories) ==
      ScoreIn(t, Ones) + ScoreIn(t, Twos) + ScoreIn(t, Threes) +
      ScoreIn(t, Fours) + ScoreIn(t, Fives) + ScoreIn(t, Sixes)
  {
    var u := UpperCategories;
    assert u[..5][..4] == u[..4] && u[..4][..3] == u[..3] && u[..3][..2] == u[..2] && u[..2][..1] == u[..1];
    assert SumScores(t, u[..1]) == ScoreIn(t, Ones);
    assert SumScores(t, u[..2]) == ScoreIn(t, Ones) + ScoreIn(t, Twos);
    assert SumScores(t, u[..3]) == ScoreIn(t, Ones) + ScoreIn(t, Twos) + ScoreIn(t, Threes);
    assert SumScores(t, u[..4]) == SumScores(t, u[..3]) + ScoreIn(t, Fours);
    assert SumScores(t, u[..5]) == SumScores(t, u[..4]) + ScoreIn(t, Fives);
  }

  /** Rewriting one upper entry moves the upper sum by the difference of the scores. */
  lemma UpperSumUpdate(t: map<Category, Entry>, c: Category, e: Entry)
    requires IsUpper(c)
    ensures SumScores(t[c := e], UpperCategories) == SumScores(t, UpperCategories) - ScoreIn(t, c) + e.score
  {
    UpperSumOfSix(t);
    UpperSumOfSix(t[c := e]);
  }

  /** The table `resetScores` leaves and the constructor builds. */
  function FreshTable(): (t: map<Category, Entry>)
    ensures forall c :: c in t && t[c] == Entry(false, 0)
  {
    var t := map c | c in AllCategories :: Entry(false, 0);
    assert forall c :: c in t by {
      forall c ensures c in t { CategoryListed(c); }
    }
    t
  }

  class YatzyEngine {
    var scoreTable: map<Category, Entry>
    var upperBonusAwarded: bool

    /** Every category has an entry; an unused entry scores 0; upper scores are never negative. */
    ghost predicate TableValid()
      reads this
    {
      (forall c :: c in scoreTable) &&
      (forall c :: c in scoreTable && !scoreTable[c].used ==> scoreTable[c].score == 0) &&
      (forall c :: c in scoreTable && IsUpper(c) ==> scoreTable[c].score >= 0)
    }

    /** ...and the bonus flag is set exactly when the upper subtotal has reached 63. */
    ghost predicate Valid()
      reads this
    {
      TableValid() && (upperBonusAwarded <==> UpperSubtotal() >= BonusThreshold)
    }

    constructor ()
      ensures Valid()
      ensures scoreTable == FreshTable() && !upperBonusAwarded
    {
      scoreTable := FreshTable();
      upperBonusAwarded := false;
      new;
      SumScoresZero(scoreTable, UpperCategories);
    }

    /** `isValidSelection`: a known category, not yet used, and a non-empty hand. */
    function IsValidSelection(category: string, hand: seq<int>): (ok: bool)
      reads this
      ensures ok <==> (|hand| > 0 &&
        exists c :: Name(c) == category && !(c in scoreTable && scoreTable[c].used))
    {
      ParseName(Ones, category);
      match Parse(category)
      case None => false
      case Some(c) => !(c in scoreTable && scoreTable[c].used) && |hand| > 0
    }

    /** The six upper entries, added up. */
    function UpperSubtotal(): (r: int)
      reads this
      ensures (forall c :: c in scoreTable && IsUpper(c) ==> scoreTable[c].score >= 0) ==> r >= 0
    {
      UpperSumNonnegative(scoreTable);
      SumScores(scoreTable, UpperCategories)
    }

    /** 35 or 0; on a valid engine, 35 exactly when the upper subtotal has reached 63. */
    function UpperBonus(): (r: int)
      reads this
      ensures r == if upperBonusAwarded then BonusPoints else 0
      ensures Valid() ==> (r == BonusPoints <==> UpperSubtotal() >= BonusThreshold)
    {
      if upperBonusAwarded then BonusPoints else 0
    }

    /** The seven lower entries, added up. */
    function LowerSubtotal(): int
      reads this
    {
      SumScores(scoreTable, LowerCategories)
    }

    /** The total is every entry of the table plus the bonus. */
    function Total(): (t: int)
      reads this
      ensures t == SumScores(scoreTable, AllCategories) + UpperBonus()
    {
      assert AllCategories == UpperCategories + LowerCategories;
      SumScoresAppend(scoreTable, UpperCategories, LowerCategories);
      UpperSubtotal() + UpperBonus() + LowerSubtotal()
    }

    /** `_updateUpperBonusIfNeeded`: set the flag once the upper subtotal reaches 63. */
    method UpdateUpperBonusIfNeeded()
      modifies this
      ensures scoreTable == old(scoreTable)
      ensures upperBonusAwarded == (old(upperBonusAwarded) || UpperSubtotal() >= BonusThreshold)
      ensures old(TableValid()) && (old(upperBonusAwarded) ==> UpperSubtotal() >= BonusThreshold) ==> Valid()
    {
      if !upperBonusAwarded && UpperSubtotal() >= BonusThreshold {
        upperBonusAwarded := true;
      }
    }

    /**
     * `assignScore`: an invalid selection scores 0 and changes nothing; a valid
     * one stores the category's score in its entry, marks it used, and may set
     * the bonus flag.  Entries already used never change.
     */
    method AssignScore(category: string, hand: seq<int>) returns (r: int)
      requires Valid()
      modifies this
      ensures Valid()
      ensures !old(IsValidSelection(category, hand)) ==>
        r == 0 && scoreTable == old(scoreTable) && upperBonusAwarded == old(upperBonusAwarded)
      ensures old(IsValidSelection(category, hand)) ==>
        var c := Parse(category).value;
        r == Score(c, hand) && scoreTable == old(scoreTable)[c := Entry(true, r)]
      ensures old(upperBonusAwarded) ==> upperBonusAwarded
      ensures forall c :: old(scoreTable[c].used) ==> scoreTable[c] == old(scoreTable[c])
    {
      if !IsValidSelection(category, hand) {
        return 0;
      }
      r := CalculateScore(category, hand);
      var c := Parse(category).value;
      ghost var before := scoreTable;
      var e := Entry(true, r);
      if IsUpper(c) {
        UpperScore(c, hand);
        SumScoresMonotone(before, UpperCategories, c, e);
      } else {
        CategoryListed(c);
        SumScoresFrame(before, UpperCategories, c, e);
      }
      scoreTable := scoreTable[c := e];
      UpdateUpperBonusIfNeeded();
    }

    /** `resetScores`: every entry back to unused with score 0, bonus cleared. */
    method ResetScores()
      requires Valid()
      modifies this
      ensures Valid()
      ensures scoreTable == FreshTable() && !upperBonusAwarded
    {
      var i := 0;
      while i < |AllCategories|
        invariant 0 <= i <= |AllCategories|
        invariant forall c :: c in scoreTable
        invariant forall j :: 0 <= j < i ==> scoreTable[AllCategories[j]] == Entry(false, 0)
      {
        scoreTable := scoreTable[AllCategories[i] := Entry(false, 0)];
        i := i + 1;
      }
      upperBonusAwarded := false;
      forall c ensures scoreTable[c] == Entry(false, 0) {
        CategoryListed(c);
      }
      assert scoreTable == FreshTable();
      SumScoresZero(scoreTable, UpperCategories);
    }
  }
}
