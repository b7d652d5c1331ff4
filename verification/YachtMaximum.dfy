/** Yacht: the cap of 323 is reached by a run of twelve confirmations. */
module YachtMaximum {
  import opened Wrappers
  import opened YachtRound
  import opened YachtDice
  import opened YachtScore

  function Categories(): seq<Category> {
    [Ones, Twos, Threes, Fours, Fives, Sixes, Choice, FourOfAKind, FullHouse, SmallStraight, LargeStraight, Yacht]
  }

  /** The room plays the game, and the player has rounds from `round` on to score. */
  predicate Scorable(s: Scores, game: GameId, p: PlayerId, round: int) {
    && s.mappedRoom.Some? && s.room == Some(RoomHash(Some(game), Playing)) && p in s.players
    && forall slot :: slot in s.submissions && slot.playerId == p ==> slot.roundNumber < round
  }

  predicate NoRepeat(todo: seq<Category>) {
    forall i, j :: 0 <= i < j < |todo| ==> todo[i] != todo[j]
  }

  /** The best dice for an open category are confirmed. */
  lemma ConfirmBest(s: Scores, game: GameId, p: PlayerId, round: int, c: Category) returns (q: Request)
    requires Scorable(s, game, p, round) && c !in BoardOf(s, p).cells
    ensures FromService(ConfirmCall(q))
    ensures var s' := Confirm(s, q).1;
            Scorable(s', game, p, round + 1) && BoardOf(s', p).cells == BoardOf(s, p).cells[c := MaxScore(c)]
  {
    var dice := MaxScoreReached(c);
    q := Request(s.mappedRoom.value, game, p, round, c, MaxScore(c), IsUpper(c), Signature(c, dice));
    hide Score, MaxScore, IsUpper;
  }

  /** Every category still to fill gets its best score, one call each. */
  lemma {:induction false} FillSheet(s: Scores, game: GameId, p: PlayerId, round: int, todo: seq<Category>)
    returns (calls: seq<Call>)
    requires Scorable(s, game, p, round) && NoRepeat(todo)
    requires forall c :: c in todo ==> c !in BoardOf(s, p).cells
    ensures |calls| == |todo| && forall call :: call in calls ==> FromService(call)
    ensures var cells := BoardOf(Run(s, calls), p).cells;
            && (forall c :: c in todo ==> c in cells && cells[c] == MaxScore(c))
            && (forall c :: c in BoardOf(s, p).cells ==> c in cells && cells[c] == BoardOf(s, p).cells[c])
    decreases |todo|
  {
    hide BoardOf, MaxScore, FromService, Confirm, Scorable;
    if todo == [] {
      calls := [];
    } else {
      var q := ConfirmBest(s, game, p, round, todo[0]);
      var s' := Step(s, ConfirmCall(q));
      assert s' == Confirm(s, q).1;
      var rest := FillSheet(s', game, p, round + 1, todo[1..]);
      calls := [ConfirmCall(q)] + rest;
      assert calls[1..] == rest;
      assert todo == [todo[0]] + todo[1..];
      assert todo[0] in todo;
      assert Run(s, calls) == Run(s', rest);
      forall c | c in BoardOf(s, p).cells
        ensures c in BoardOf(s', p).cells && BoardOf(s', p).cells[c] == BoardOf(s, p).cells[c]
      {
        assert c != todo[0];
      }
    }
  }

  /** From a clean sheet twelve confirmations of the service can bring a total of 323. */
  lemma MaximumIsReached(s: Scores, game: GameId, p: PlayerId) returns (calls: seq<Call>)
    requires Clean(s) && s.mappedRoom.Some? && s.room == Some(RoomHash(Some(game), Playing)) && p in s.players
    ensures |calls| == 12 && forall call :: call in calls ==> FromService(call)
    ensures p in Run(s, calls).boards && Run(s, calls).boards[p].total == 323
  {
    calls := FillSheet(s, game, p, 1, Categories());
    hide Run, FromService, MaxScore, CellSum, UpperSum, ScoredRounds;
    var b := BoardOf(Run(s, calls), p);
    assert Categories()[0] in Categories();
    assert p in Run(s, calls).boards;
    SheetIsRight(s, calls, p);
    FullCells(b);
    FullSums(b);
  }

  lemma FullSums(b: Board)
    requires forall c :: Cell(b, c) == MaxScore(c)
    ensures UpperSum(b) == 105 && CellSum(b) == 288
  {
    UpperFull(b);
    hide Cell, UpperSum;
  }

  lemma FullCells(b: Board)
    requires forall c :: c in Categories() ==> c in b.cells && b.cells[c] == MaxScore(c)
    ensures forall c :: Cell(b, c) == MaxScore(c)
  {
    hide Categories, MaxScore;
    forall c
      ensures Cell(b, c) == MaxScore(c)
    {
      AllCategories(c);
    }
  }

  lemma UpperFull(b: Board)
    requires forall c :: Cell(b, c) == MaxScore(c)
    ensures UpperSum(b) == 105
  {
    hide Cell;
  }

  lemma AllCategories(c: Category)
    ensures c in Categories()
  {
    var i := match c
      case Ones => 0 case Twos => 1 case Threes => 2 case Fours => 3 case Fives => 4 case Sixes => 5
      case Choice => 6 case FourOfAKind => 7 case FullHouse => 8 case SmallStraight => 9 case LargeStraight => 10
      case Yacht => 11;
    assert Categories()[i] == c;
  }
}
