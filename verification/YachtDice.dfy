/** Yacht: what five dice are worth in each category. */
module YachtDice {
  import opened Wrappers
  import opened YachtRound

  const SMALL_STRAIGHT_SCORE := 15
  const LARGE_STRAIGHT_SCORE := 30
  const YACHT_SCORE := 50

  function Count(dice: seq<int>, face: int): nat {
    if dice == [] then 0 else Count(dice[..|dice| - 1], face) + if dice[|dice| - 1] == face then 1 else 0
  }

  function Sum(dice: seq<int>): int {
    if dice == [] then 0 else Sum(dice[..|dice| - 1]) + dice[|dice| - 1]
  }

  predicate IsUpper(c: Category) {
    c.Ones? || c.Twos? || c.Threes? || c.Fours? || c.Fives? || c.Sixes?
  }

  function UpperFace(c: Category): int
    requires IsUpper(c)
  {
    match c
    case Ones => 1
    case Twos => 2
    case Threes => 3
    case Fours => 4
    case Fives => 5
    case Sixes => 6
  }

  /** Faces first, first + 1, ... all lie on the table. */
  predicate RunFrom(dice: seq<int>, first: int, length: nat) {
    forall face :: first <= face < first + length ==> face in dice
  }

  predicate HasRun(dice: seq<int>, length: nat) {
    exists first :: 1 <= first <= 7 - length && RunFrom(dice, first, length)
  }

  predicate Satisfied(c: Category, dice: seq<int>) {
    match c
    case Choice => true
    case FourOfAKind => exists face :: 1 <= face <= 6 && Count(dice, face) >= 4
    case FullHouse =>
      exists three, two ::
        1 <= three <= 6 && 1 <= two <= 6 && Count(dice, three) == 3 && Count(dice, two) == 2
    case SmallStraight => HasRun(dice, 4)
    case LargeStraight => HasRun(dice, 5)
    case Yacht => exists face :: 1 <= face <= 6 && Count(dice, face) == DICE_COUNT
    case _ => UpperFace(c) in dice
  }

  function Worth(c: Category, dice: seq<int>): int {
    match c
    case Choice => Sum(dice)
    case FourOfAKind => Sum(dice)
    case FullHouse => Sum(dice)
    case SmallStraight => SMALL_STRAIGHT_SCORE
    case LargeStraight => LARGE_STRAIGHT_SCORE
    case Yacht => YACHT_SCORE
    case _ => UpperFace(c) * Count(dice, UpperFace(c))
  }

  /** Bad dice are an error; dice that miss the category score zero. */
  function Score(c: Category, dice: seq<int>): Result<int, Error> {
    if !DiceOk(dice) then Failure(InvalidDice)
    else if !Satisfied(c, dice) then Success(0)
    else Success(Worth(c, dice))
  }

  // ---------------------------------------------------------------------------
  // The loops.

  /** How many of each face, by face. */
  method CountFaces(dice: seq<int>) returns (counts: seq<nat>)
    requires DiceOk(dice)
    ensures |counts| == 7 && counts[0] == 0
    ensures forall face :: 1 <= face <= 6 ==> counts[face] == Count(dice, face)
  {
    counts := [0, 0, 0, 0, 0, 0, 0];
    for i := 0 to |dice|
      invariant |counts| == 7 && counts[0] == 0
      invariant forall face :: 1 <= face <= 6 ==> counts[face] == Count(dice[..i], face)
    {
      assert dice[..i + 1][..i] == dice[..i];
      counts := counts[dice[i] := counts[dice[i]] + 1];
    }
    assert dice[..|dice|] == dice;
  }

  method FindRun(dice: seq<int>, length: nat) returns (found: bool)
    requires 1 <= length <= 6
    ensures found == HasRun(dice, length)
  {
    var run := 0;
    for face := 1 to 7
      invariant 0 <= run < length && run < face
      invariant RunFrom(dice, face - run, run)
      invariant face - run > 1 ==> face - run - 1 !in dice
      invariant forall first :: 1 <= first && first + length <= face ==> !RunFrom(dice, first, length)
    {
      if face in dice { run := run + 1; } else { run := 0; }
      if run >= length {
        assert RunFrom(dice, face + 1 - run, length);
        return true;
      }
      RunBlocked(dice, face + 1 - run, face + 1, length);
    }
    return false;
  }

  /** A run that would reach over a missing face, or back before the current one, does not exist. */
  lemma RunBlocked(dice: seq<int>, start: int, end: int, length: nat)
    requires start <= end < start + length
    requires start > 1 ==> start - 1 !in dice
    ensures forall first :: 1 <= first && first + length == end ==> !RunFrom(dice, first, length)
  {
    forall first | 1 <= first && first + length == end
      ensures !RunFrom(dice, first, length)
    {
      assert first <= start - 1 < first + length;
    }
  }

  method Upper(dice: seq<int>, face: int) returns (sum: int)
    ensures sum == face * Count(dice, face)
  {
    sum := 0;
    for i := 0 to |dice|
      invariant sum == face * Count(dice[..i], face)
    {
      assert dice[..i + 1][..i] == dice[..i];
      if dice[i] == face { sum := sum + dice[i]; }
    }
    assert dice[..|dice|] == dice;
  }

  method Total(dice: seq<int>) returns (sum: int)
    ensures sum == Sum(dice)
  {
    sum := 0;
    for i := 0 to |dice|
      invariant sum == Sum(dice[..i])
    {
      assert dice[..i + 1][..i] == dice[..i];
      sum := sum + dice[i];
    }
    assert dice[..|dice|] == dice;
  }

  /** How many different faces. */
  function Kinds(counts: seq<nat>): nat
    requires |counts| == 7
  {
    (if counts[1] > 0 then 1 else 0) + (if counts[2] > 0 then 1 else 0) + (if counts[3] > 0 then 1 else 0) +
    (if counts[4] > 0 then 1 else 0) + (if counts[5] > 0 then 1 else 0) + (if counts[6] > 0 then 1 else 0)
  }

  ghost predicate Counted(counts: seq<nat>, dice: seq<int>) {
    && |counts| == 7
    && (forall face :: 1 <= face <= 6 ==> counts[face] == Count(dice, face))
    && counts[1] + counts[2] + counts[3] + counts[4] + counts[5] + counts[6] == DICE_COUNT
  }

  lemma FullHouseByCounts(counts: seq<nat>, dice: seq<int>)
    requires Counted(counts, dice)
    ensures Satisfied(FullHouse, dice) <==>
              Kinds(counts) == 2 && (exists face :: 1 <= face <= 6 && counts[face] == 2)
              && (exists face :: 1 <= face <= 6 && counts[face] == 3)
  {
    if Satisfied(FullHouse, dice) {
      var three, two :| 1 <= three <= 6 && 1 <= two <= 6 && Count(dice, three) == 3 && Count(dice, two) == 2;
      assert counts[three] == 3 && counts[two] == 2;
    }
  }

  lemma YachtByCounts(counts: seq<nat>, dice: seq<int>)
    requires Counted(counts, dice)
    ensures Satisfied(Yacht, dice) <==> Kinds(counts) == 1
  {
    if Kinds(counts) == 1 {
      var face := if counts[1] > 0 then 1 else if counts[2] > 0 then 2 else if counts[3] > 0 then 3
                  else if counts[4] > 0 then 4 else if counts[5] > 0 then 5 else 6;
      assert Count(dice, face) == counts[face] == DICE_COUNT;
    }
  }

  /** The source's tests, made on the table of counts. */
  method IsSatisfiedBy(c: Category, dice: seq<int>) returns (satisfied: bool)
    requires DiceOk(dice)
    ensures satisfied == Satisfied(c, dice)
  {
    var counts := CountFaces(dice);
    FacesAddUp(dice);
    hide Count, Sum, HasRun;
    match c
    case Choice => satisfied := true;
    case FourOfAKind => satisfied := exists face :: 1 <= face <= 6 && counts[face] >= 4;
    case FullHouse =>
      FullHouseByCounts(counts, dice);
      satisfied := Kinds(counts) == 2 && (exists face :: 1 <= face <= 6 && counts[face] == 2)
                   && (exists face :: 1 <= face <= 6 && counts[face] == 3);
    case SmallStraight => satisfied := FindRun(dice, 4);
    case LargeStraight => satisfied := FindRun(dice, 5);
    case Yacht =>
      YachtByCounts(counts, dice);
      satisfied := Kinds(counts) == 1;
    case _ =>
      satisfied := UpperFace(c) in dice;
  }

  method CalculateScore(c: Category, dice: seq<int>) returns (score: Result<int, Error>)
    ensures score == Score(c, dice)
  {
    if !DiceOk(dice) { return Failure(InvalidDice); }
    var satisfied := IsSatisfiedBy(c, dice);
    if !satisfied { return Success(0); }
    match c {
      case Choice =>
        var sum := Total(dice);
        return Success(sum);
      case FourOfAKind =>
        var sum := Total(dice);
        return Success(sum);
      case FullHouse =>
        var sum := Total(dice);
        return Success(sum);
      case SmallStraight => return Success(SMALL_STRAIGHT_SCORE);
      case LargeStraight => return Success(LARGE_STRAIGHT_SCORE);
      case Yacht => return Success(YACHT_SCORE);
      case _ =>
        var sum := Upper(dice, UpperFace(c));
        return Success(sum);
    }
  }

  // ---------------------------------------------------------------------------
  // How much a category can bring.

  lemma {:induction false} FacesAddUp(dice: seq<int>)
    requires forall i :: 0 <= i < |dice| ==> 1 <= dice[i] <= 6
    ensures Count(dice, 1) + Count(dice, 2) + Count(dice, 3) + Count(dice, 4) + Count(dice, 5) + Count(dice, 6) == |dice|
    ensures Sum(dice) == Count(dice, 1) + 2 * Count(dice, 2) + 3 * Count(dice, 3)
                         + 4 * Count(dice, 4) + 5 * Count(dice, 5) + 6 * Count(dice, 6)
  {
    if dice != [] {
      FacesAddUp(dice[..|dice| - 1]);
    }
  }

  function MaxScore(c: Category): int {
    match c
    case Choice => 30
    case FourOfAKind => 30
    case FullHouse => 28
    case SmallStraight => SMALL_STRAIGHT_SCORE
    case LargeStraight => LARGE_STRAIGHT_SCORE
    case Yacht => YACHT_SCORE
    case _ => DICE_COUNT * UpperFace(c)
  }

  lemma CountAtMost(dice: seq<int>, face: int)
    ensures Count(dice, face) <= |dice|
  {
  }

  lemma ScoreAtMost(c: Category, dice: seq<int>)
    requires Score(c, dice).Success?
    ensures 0 <= Score(c, dice).value <= MaxScore(c)
  {
    FacesAddUp(dice);
    if IsUpper(c) {
      CountAtMost(dice, UpperFace(c));
    }
  }

  /** Every category's bound is reached by some roll. */
  lemma MaxScoreReached(c: Category) returns (dice: seq<int>)
    ensures Score(c, dice) == Success(MaxScore(c))
  {
    match c {
      case FullHouse => dice := [6, 6, 6, 5, 5];
      case SmallStraight => dice := [1, 2, 3, 4, 4];
      case LargeStraight => dice := [1, 2, 3, 4, 5];
      case Choice => dice := [6, 6, 6, 6, 6];
      case FourOfAKind => dice := [6, 6, 6, 6, 6];
      case Yacht => dice := [6, 6, 6, 6, 6];
      case _ => dice := [UpperFace(c), UpperFace(c), UpperFace(c), UpperFace(c), UpperFace(c)];
    }
    FiveDice(dice[0], dice[1], dice[2], dice[3], dice[4]);
    if c.FullHouse? {
      assert Count(dice, 6) == 3 && Count(dice, 5) == 2;
    } else if c.SmallStraight? {
      assert RunFrom(dice, 1, 4);
    } else if c.LargeStraight? {
      assert RunFrom(dice, 1, 5);
    } else if !c.Choice? {
      assert Count(dice, dice[0]) == 5;
    }
  }

  lemma FiveDice(a: int, b: int, c: int, d: int, e: int)
    ensures Sum([a, b, c, d, e]) == a + b + c + d + e
    ensures forall face :: Count([a, b, c, d, e], face) ==
              (if a == face then 1 else 0) + (if b == face then 1 else 0) + (if c == face then 1 else 0)
              + (if d == face then 1 else 0) + (if e == face then 1 else 0)
  {
    OneMore([], a);
    OneMore([a], b);
    OneMore([a, b], c);
    OneMore([a, b, c], d);
    OneMore([a, b, c, d], e);
    hide Count, Sum;
    assert [] + [a] == [a] && [a] + [b] == [a, b] && [a, b] + [c] == [a, b, c];
    assert [a, b, c] + [d] == [a, b, c, d] && [a, b, c, d] + [e] == [a, b, c, d, e];
    NoDice();
  }

  lemma NoDice()
    ensures Sum([]) == 0 && forall face :: Count([], face) == 0
  {
  }

  lemma OneMore(dice: seq<int>, die: int)
    ensures Sum(dice + [die]) == Sum(dice) + die
    ensures forall face :: Count(dice + [die], face) == Count(dice, face) + if die == face then 1 else 0
  {
    assert (dice + [die])[..|dice|] == dice;
  }

  // ---------------------------------------------------------------------------
  // The card.

  lemma {:induction false} CountIsMultiplicity(dice: seq<int>, face: int)
    ensures Count(dice, face) == multiset(dice)[face]
  {
    if dice != [] {
      CountIsMultiplicity(dice[..|dice| - 1], face);
      assert dice == dice[..|dice| - 1] + [dice[|dice| - 1]];
    }
  }

  /** What each line of the card pays, for the dice as a bag of faces. */
  ghost function Pays(c: Category, bag: multiset<int>, total: int): int {
    match c
    case Ones => bag[1]
    case Twos => 2 * bag[2]
    case Threes => 3 * bag[3]
    case Fours => 4 * bag[4]
    case Fives => 5 * bag[5]
    case Sixes => 6 * bag[6]
    case Choice => total
    case FourOfAKind => if exists face :: bag[face] >= 4 then total else 0
    case FullHouse => if exists three, two :: bag[three] == 3 && bag[two] == 2 then total else 0
    case SmallStraight =>
      if multiset{1, 2, 3, 4} <= bag || multiset{2, 3, 4, 5} <= bag || multiset{3, 4, 5, 6} <= bag then 15 else 0
    case LargeStraight => if multiset{1, 2, 3, 4, 5} <= bag || multiset{2, 3, 4, 5, 6} <= bag then 30 else 0
    case Yacht => if exists face :: bag[face] == 5 then 50 else 0
  }

  lemma OnlyFaces(dice: seq<int>, face: int)
    requires DiceOk(dice) && multiset(dice)[face] > 0
    ensures 1 <= face <= 6
  {
    assert face in dice;
  }

  lemma RunsOfFour(dice: seq<int>)
    requires DiceOk(dice)
    ensures var bag := multiset(dice);
            HasRun(dice, 4) <==> multiset{1, 2, 3, 4} <= bag || multiset{2, 3, 4, 5} <= bag || multiset{3, 4, 5, 6} <= bag
  {
    RunInBag(dice, 1, 4);
    RunInBag(dice, 2, 4);
    RunInBag(dice, 3, 4);
    hide RunFrom;
    if HasRun(dice, 4) {
      var first :| 1 <= first <= 3 && RunFrom(dice, first, 4);
      assert first == 1 || first == 2 || first == 3;
    }
  }

  lemma RunsOfFive(dice: seq<int>)
    requires DiceOk(dice)
    ensures HasRun(dice, 5) <==> multiset{1, 2, 3, 4, 5} <= multiset(dice) || multiset{2, 3, 4, 5, 6} <= multiset(dice)
  {
    RunInBag(dice, 1, 5);
    RunInBag(dice, 2, 5);
    hide RunFrom;
    if HasRun(dice, 5) {
      var first :| 1 <= first <= 2 && RunFrom(dice, first, 5);
      assert first == 1 || first == 2;
    }
  }

  lemma RunInBag(dice: seq<int>, first: int, length: nat)
    requires length == 4 || length == 5
    ensures RunFrom(dice, first, length) <==>
              if length == 4 then multiset{first, first + 1, first + 2, first + 3} <= multiset(dice)
              else multiset{first, first + 1, first + 2, first + 3, first + 4} <= multiset(dice)
  {
    var run := if length == 4 then multiset{first, first + 1, first + 2, first + 3}
               else multiset{first, first + 1, first + 2, first + 3, first + 4};
    assert forall face :: run[face] == if first <= face < first + length then 1 else 0;
    if run <= multiset(dice) {
      forall face | first <= face < first + length ensures face in dice { assert run[face] == 1; }
    }
    if RunFrom(dice, first, length) {
      forall face ensures run[face] <= multiset(dice)[face] {
        if first <= face < first + length { assert face in dice; }
      }
    }
  }

  lemma UpperPays(c: Category, dice: seq<int>, total: int)
    requires DiceOk(dice) && IsUpper(c)
    ensures Score(c, dice) == Success(Pays(c, multiset(dice), total))
  {
    CountIsMultiplicity(dice, UpperFace(c));
    hide Count;
    assert UpperFace(c) in dice <==> multiset(dice)[UpperFace(c)] > 0;
  }

  lemma StraightPays(c: Category, dice: seq<int>, total: int)
    requires DiceOk(dice) && (c.SmallStraight? || c.LargeStraight?)
    ensures Score(c, dice) == Success(Pays(c, multiset(dice), total))
  {
    RunsOfFour(dice);
    RunsOfFive(dice);
    hide HasRun;
  }

  lemma CombinationPays(c: Category, dice: seq<int>, total: int)
    requires DiceOk(dice) && total == Sum(dice) && (c.Choice? || c.FourOfAKind? || c.FullHouse? || c.Yacht?)
    ensures Score(c, dice) == Success(Pays(c, multiset(dice), total))
  {
    forall face ensures Count(dice, face) == multiset(dice)[face] { CountIsMultiplicity(dice, face); }
    forall face | multiset(dice)[face] > 0 ensures 1 <= face <= 6 { OnlyFaces(dice, face); }
    hide Count, Sum;
  }

  /** Every line of the card pays what is written on it, whatever the roll. */
  lemma CardPays(c: Category, dice: seq<int>)
    requires DiceOk(dice)
    ensures Score(c, dice) == Success(Pays(c, multiset(dice), dice[0] + dice[1] + dice[2] + dice[3] + dice[4]))
  {
    assert dice == [dice[0], dice[1], dice[2], dice[3], dice[4]];
    FiveDice(dice[0], dice[1], dice[2], dice[3], dice[4]);
    hide Count, Sum, Score, Pays;
    var total := dice[0] + dice[1] + dice[2] + dice[3] + dice[4];
    if IsUpper(c) {
      UpperPays(c, dice, total);
    } else if c.SmallStraight? || c.LargeStraight? {
      StraightPays(c, dice, total);
    } else {
      CombinationPays(c, dice, total);
    }
  }
}
