/** Yacht: the score confirmation and game finish scripts of one room and game. */
module YachtScore {
  import opened Wrappers
  import opened Sets
  import opened YachtRound
  import opened YachtDice

  type RoomCode(==, !new)
  type GameId(==, !new)

  const UPPER_BONUS_THRESHOLD := 63
  const UPPER_BONUS_SCORE := 35
  const REQUIRED_CATEGORIES := 12

  datatype Phase = Waiting | Playing | Finished

  datatype RoomHash = RoomHash(gameId: Option<GameId>, phase: Phase)

  /** The twelve cells and the three running totals of one player. */
  datatype Board = Board(cells: map<Category, int>, subtotal: int, bonus: int, total: int)

  const EMPTY_BOARD := Board(map[], 0, 0, 0)

  datatype Signature = Signature(category: Category, dice: seq<int>)

  datatype Slot = Slot(playerId: PlayerId, roundNumber: int)

  /** The keys of one game and its room. */
  datatype Scores = Scores(
    mappedRoom: Option<RoomCode>,
    room: Option<RoomHash>,
    players: set<PlayerId>,
    boards: map<PlayerId, Board>,
    submissions: map<Slot, Signature>,
    totals: map<PlayerId, int>
  )

  datatype Request = Request(
    roomCode: RoomCode,
    gameId: GameId,
    playerId: PlayerId,
    roundNumber: int,
    category: Category,
    score: int,
    isUpper: bool,
    signature: Signature
  )

  datatype Code =
    | Success0 | GameMissing1 | GameRoomChanged2 | PlayerMissing3 | RoundConflict4
    | IdempotentRetry5 | CategoryConflict6 | RoomMissing7 | RoomGameChanged8 | GameNotPlaying9

  function SlotOf(q: Request): Slot {
    Slot(q.playerId, q.roundNumber)
  }

  function BoardOf(s: Scores, p: PlayerId): Board {
    if p in s.boards then s.boards[p] else EMPTY_BOARD
  }

  /** The guards in the promised order: 1, 2, 7, 8, 9, 3, 5 or 4, 6. */
  function Guard(s: Scores, q: Request): Option<Code> {
    if s.mappedRoom.None? then Some(GameMissing1)
    else if s.mappedRoom.value != q.roomCode then Some(GameRoomChanged2)
    else if s.room.None? then Some(RoomMissing7)
    else if s.room.value.gameId != Some(q.gameId) then Some(RoomGameChanged8)
    else if s.room.value.phase != Playing then Some(GameNotPlaying9)
    else if q.playerId !in s.players then Some(PlayerMissing3)
    else if SlotOf(q) in s.submissions then
      Some(if s.submissions[SlotOf(q)] == q.signature then IdempotentRetry5 else RoundConflict4)
    else if q.category in BoardOf(s, q.playerId).cells then Some(CategoryConflict6)
    else None
  }

  function Fill(b: Board, q: Request): Board {
    var subtotal := if q.isUpper then b.subtotal + q.score else b.subtotal;
    var bonus := if subtotal >= UPPER_BONUS_THRESHOLD then UPPER_BONUS_SCORE else 0;
    Board(b.cells[q.category := q.score], subtotal, bonus, b.total + q.score + bonus - b.bonus)
  }

  function Confirm(s: Scores, q: Request): (Code, Scores) {
    var refused := Guard(s, q);
    if refused.Some? then (refused.value, s)
    else
      var board := Fill(BoardOf(s, q.playerId), q);
      (Success0, s.(boards := s.boards[q.playerId := board],
                    submissions := s.submissions[SlotOf(q) := q.signature],
                    totals := s.totals[q.playerId := board.total]))
  }

  predicate Complete(s: Scores, required: int) {
    s.players != {} && forall p :: p in s.players ==> |BoardOf(s, p).cells| >= required
  }

  predicate CanFinish(s: Scores, gameId: GameId, force: bool, required: int) {
    && s.room.Some? && s.room.value.phase == Playing && s.room.value.gameId == Some(gameId)
    && (force || Complete(s, required))
  }

  /** True for the one call that turned PLAYING into FINISHED. */
  function Finish(s: Scores, gameId: GameId, force: bool, required: int): (bool, Scores) {
    if CanFinish(s, gameId, force, required) then
      (true, s.(room := Some(s.room.value.(phase := Phase.Finished))))
    else (false, s)
  }

  // ---------------------------------------------------------------------------
  // What the totals mean.

  function Cell(b: Board, c: Category): int {
    if c in b.cells then b.cells[c] else 0
  }

  function UpperSum(b: Board): int {
    Cell(b, Ones) + Cell(b, Twos) + Cell(b, Threes) + Cell(b, Fours) + Cell(b, Fives) + Cell(b, Sixes)
  }

  function CellSum(b: Board): int {
    UpperSum(b) + Cell(b, Choice) + Cell(b, FourOfAKind) + Cell(b, FullHouse)
    + Cell(b, SmallStraight) + Cell(b, LargeStraight) + Cell(b, Yacht)
  }

  predicate BoardOk(b: Board) {
    && b.subtotal == UpperSum(b)
    && b.bonus == (if b.subtotal >= UPPER_BONUS_THRESHOLD then UPPER_BONUS_SCORE else 0)
    && b.total == CellSum(b) + b.bonus
  }

  function ScoredRounds(submissions: map<Slot, Signature>, p: PlayerId): set<Slot> {
    set slot | slot in submissions && slot.playerId == p
  }

  predicate Played(s: Scores, p: PlayerId) {
    && BoardOk(BoardOf(s, p))
    && |BoardOf(s, p).cells| == |ScoredRounds(s.submissions, p)|
  }

  ghost predicate ScoresOk(s: Scores) {
    forall p :: Played(s, p)
  }

  /** The room shows every sheet's total. */
  ghost predicate TotalsOk(s: Scores) {
    forall p :: p in s.boards ==> p in s.totals && s.totals[p] == s.boards[p].total
  }

  /** Every cell holds what the calculator can give. */
  predicate CellsCalculated(b: Board) {
    forall c :: c in b.cells ==> 0 <= b.cells[c] <= MaxScore(c)
  }

  lemma CellFilled(b: Board, q: Request, c: Category)
    requires q.category !in b.cells
    ensures Cell(Fill(b, q), c) == Cell(b, c) + if c == q.category then q.score else 0
  {
  }

  lemma SumsFilled(b: Board, q: Request)
    requires q.category !in b.cells
    ensures UpperSum(Fill(b, q)) == UpperSum(b) + if IsUpper(q.category) then q.score else 0
    ensures CellSum(Fill(b, q)) == CellSum(b) + q.score
  {
    var b' := Fill(b, q);
    forall c
      ensures Cell(b', c) == Cell(b, c) + if c == q.category then q.score else 0
    {
      CellFilled(b, q, c);
    }
    hide Cell, Fill;
    match q.category
    case Ones => case Twos => case Threes => case Fours => case Fives => case Sixes =>
    case Choice => case FourOfAKind => case FullHouse => case SmallStraight => case LargeStraight => case Yacht =>
  }

  lemma FillOk(b: Board, q: Request)
    requires BoardOk(b) && q.category !in b.cells && q.isUpper == IsUpper(q.category)
    ensures BoardOk(Fill(b, q))
    ensures |Fill(b, q).cells| == |b.cells| + 1
  {
    hide UpperSum, CellSum;
    SumsFilled(b, q);
    assert Fill(b, q).cells.Keys == b.cells.Keys + {q.category};
    assert |Fill(b, q).cells| == |Fill(b, q).cells.Keys| && |b.cells| == |b.cells.Keys|;
  }

  /** A full sheet of the calculator's best scores makes 323. */
  lemma TotalAtMost(b: Board)
    requires BoardOk(b) && CellsCalculated(b)
    ensures 0 <= b.total <= 323
  {
    forall c
      ensures 0 <= Cell(b, c) <= MaxScore(c)
    {
      MaxNonNegative(c);
    }
    UpperAtMost(b);
    hide Cell, UpperSum;
  }

  lemma UpperAtMost(b: Board)
    requires forall c :: 0 <= Cell(b, c) <= MaxScore(c)
    ensures 0 <= UpperSum(b) <= 105
  {
    hide Cell;
  }

  lemma MaxNonNegative(c: Category)
    ensures MaxScore(c) >= 0
  {
  }

  lemma OneMoreRound(submissions: map<Slot, Signature>, slot: Slot, signature: Signature, p: PlayerId)
    requires slot !in submissions
    ensures var after := submissions[slot := signature];
            ScoredRounds(after, p) == ScoredRounds(submissions, p) + (if slot.playerId == p then {slot} else {})
    ensures |ScoredRounds(submissions[slot := signature], p)|
            == |ScoredRounds(submissions, p)| + if slot.playerId == p then 1 else 0
  {
    var after := submissions[slot := signature];
    assert ScoredRounds(after, p) == ScoredRounds(submissions, p) + (if slot.playerId == p then {slot} else {});
  }

  lemma GuardPassed(s: Scores, q: Request)
    requires Guard(s, q).None?
    ensures q.category !in BoardOf(s, q.playerId).cells && SlotOf(q) !in s.submissions
    ensures q.playerId in s.players
  {
  }

  lemma ConfirmScorer(s: Scores, q: Request)
    requires Played(s, q.playerId) && q.isUpper == IsUpper(q.category) && Guard(s, q).None?
    ensures Played(Confirm(s, q).1, q.playerId)
  {
    hide BoardOk, Fill, ScoredRounds, Guard;
    GuardPassed(s, q);
    FillOk(BoardOf(s, q.playerId), q);
    OneMoreRound(s.submissions, SlotOf(q), q.signature, q.playerId);
  }

  lemma ConfirmOthers(s: Scores, q: Request, p: PlayerId)
    requires Played(s, p) && Guard(s, q).None? && p != q.playerId
    ensures Played(Confirm(s, q).1, p)
  {
    hide BoardOk, Fill, ScoredRounds, Guard;
    GuardPassed(s, q);
    OneMoreRound(s.submissions, SlotOf(q), q.signature, p);
    assert BoardOf(Confirm(s, q).1, p) == BoardOf(s, p);
  }

  lemma ConfirmTotals(s: Scores, q: Request)
    requires TotalsOk(s)
    ensures TotalsOk(Confirm(s, q).1)
  {
    hide Guard, Fill;
  }

  /** Confirming keeps every sum, bonus, shown total and count right. */
  lemma ConfirmOk(s: Scores, q: Request)
    requires ScoresOk(s) && q.isUpper == IsUpper(q.category)
    ensures ScoresOk(Confirm(s, q).1)
    ensures TotalsOk(s) ==> TotalsOk(Confirm(s, q).1)
  {
    hide Played, Guard, Confirm, TotalsOk;
    if TotalsOk(s) { ConfirmTotals(s, q); }
    if Guard(s, q).None? {
      var s' := Confirm(s, q).1;
      forall p
        ensures Played(s', p)
      {
        assert Played(s, p);
        if p == q.playerId { ConfirmScorer(s, q); } else { ConfirmOthers(s, q, p); }
      }
    } else {
      GuardRefuses(s, q);
    }
  }

  lemma GuardRefuses(s: Scores, q: Request)
    requires Guard(s, q).Some?
    ensures Confirm(s, q) == (Guard(s, q).value, s)
  {
  }

  /** A success scores one round more; a refusal leaves the store as it was. */
  lemma ConfirmCounts(s: Scores, q: Request)
    ensures Confirm(s, q).0 != Success0 ==> Confirm(s, q).1 == s
    ensures Confirm(s, q).0 == Success0 ==> |Confirm(s, q).1.submissions| == |s.submissions| + 1
  {
    if Guard(s, q).None? { GuardPassed(s, q); }
    hide Guard, Fill;
    SizeAfterInsert(s.submissions, SlotOf(q), q.signature);
  }

  // ---------------------------------------------------------------------------
  // Runs.

  datatype Call = ConfirmCall(request: Request) | FinishCall(gameId: GameId, force: bool, required: int)

  function Step(s: Scores, c: Call): Scores {
    match c
    case ConfirmCall(q) => Confirm(s, q).1
    case FinishCall(g, force, required) => Finish(s, g, force, required).1
  }

  function Run(s: Scores, calls: seq<Call>): Scores
    decreases |calls|
  {
    if calls == [] then s else Run(Step(s, calls[0]), calls[1..])
  }

  /** How many calls were told that they ended the game. */
  function Enders(s: Scores, calls: seq<Call>): nat
    decreases |calls|
  {
    if calls == [] then 0
    else
      (if calls[0].FinishCall? && Finish(s, calls[0].gameId, calls[0].force, calls[0].required).0 then 1 else 0)
      + Enders(Step(s, calls[0]), calls[1..])
  }

  /** What the confirmation service sends: its own score for the dice, and the category's own half of the sheet. */
  predicate FromService(c: Call) {
    c.ConfirmCall? ==>
      && c.request.isUpper == IsUpper(c.request.category)
      && c.request.signature.category == c.request.category
      && Score(c.request.category, c.request.signature.dice) == Success(c.request.score)
  }

  ghost predicate AllCalculated(s: Scores) {
    forall p :: p in s.boards ==> CellsCalculated(s.boards[p])
  }

  ghost predicate SheetsOk(s: Scores) {
    ScoresOk(s) && TotalsOk(s) && AllCalculated(s)
  }

  lemma {:induction false} RunOk(s: Scores, calls: seq<Call>)
    requires SheetsOk(s) && forall c :: c in calls ==> FromService(c)
    ensures SheetsOk(Run(s, calls))
    decreases |calls|
  {
    if calls != [] {
      assert calls[0] in calls;
      StepOk(s, calls[0]);
      hide SheetsOk, FromService, Step;
      RunOk(Step(s, calls[0]), calls[1..]);
    }
  }

  lemma StepOk(s: Scores, c: Call)
    requires SheetsOk(s) && FromService(c)
    ensures SheetsOk(Step(s, c))
  {
    hide ScoresOk, TotalsOk, AllCalculated, Score, Confirm, Finish;
    match c
    case ConfirmCall(q) =>
      ConfirmOk(s, q);
      ConfirmCalculated(s, q);
    case FinishCall(g, force, required) =>
      FinishKeepsScores(s, g, force, required);
      FinishKeepsSheets(s, g, force, required);
  }

  lemma ConfirmCalculated(s: Scores, q: Request)
    requires AllCalculated(s) && Score(q.category, q.signature.dice) == Success(q.score)
    ensures AllCalculated(Confirm(s, q).1)
  {
    ScoreAtMost(q.category, q.signature.dice);
    hide Score, Guard, MaxScore;
  }

  lemma FinishKeepsScores(s: Scores, g: GameId, force: bool, required: int)
    requires ScoresOk(s)
    ensures ScoresOk(Finish(s, g, force, required).1)
  {
    hide BoardOk, CanFinish, ScoredRounds;
    var s' := Finish(s, g, force, required).1;
    forall p
      ensures Played(s', p)
    {
      assert Played(s, p);
    }
  }

  lemma FinishKeepsSheets(s: Scores, g: GameId, force: bool, required: int)
    ensures TotalsOk(s) ==> TotalsOk(Finish(s, g, force, required).1)
    ensures AllCalculated(s) ==> AllCalculated(Finish(s, g, force, required).1)
  {
    hide CanFinish, CellsCalculated;
  }

  predicate Clean(s: Scores) {
    s.boards == map[] && s.submissions == map[]
  }

  lemma CleanOk(s: Scores)
    requires Clean(s)
    ensures SheetsOk(s)
  {
    forall p
      ensures Played(s, p)
    {
      assert ScoredRounds(s.submissions, p) == {};
    }
  }

  /**
   * After any sequence of calls: subtotal, bonus and total are those of the
   * cells, the room shows the total, cells and scored rounds match, and no
   * total is above 323.
   */
  lemma SheetIsRight(s: Scores, calls: seq<Call>, p: PlayerId)
    requires Clean(s) && forall c :: c in calls ==> FromService(c)
    requires p in Run(s, calls).boards
    ensures var end := Run(s, calls); var b := end.boards[p];
            && b.subtotal == UpperSum(b)
            && b.bonus == (if b.subtotal >= 63 then 35 else 0)
            && b.total == CellSum(b) + b.bonus
            && p in end.totals && end.totals[p] == b.total
            && |b.cells| == |ScoredRounds(end.submissions, p)|
            && 0 <= b.total <= 323
  {
    CleanOk(s);
    RunOk(s, calls);
    hide Run, ScoredRounds, UpperSum, CellSum, CellsCalculated, FromService;
    assert Played(Run(s, calls), p);
    TotalAtMost(Run(s, calls).boards[p]);
  }

  /** How many calls were told that they scored a round. */
  function Successes(s: Scores, calls: seq<Call>): nat
    decreases |calls|
  {
    if calls == [] then 0
    else
      (if calls[0].ConfirmCall? && Confirm(s, calls[0].request).0 == Success0 then 1 else 0)
      + Successes(Step(s, calls[0]), calls[1..])
  }

  /** Whatever calls race: there are as many scored rounds more as calls were told of a success. */
  lemma {:induction false} SuccessesAreRounds(s: Scores, calls: seq<Call>)
    ensures |Run(s, calls).submissions| == |s.submissions| + Successes(s, calls)
    decreases |calls|
  {
    hide Confirm, CanFinish;
    if calls != [] {
      if calls[0].ConfirmCall? { ConfirmCounts(s, calls[0].request); }
      SuccessesAreRounds(Step(s, calls[0]), calls[1..]);
    }
  }

  /** The request has been confirmed: its round is taken, under its signature. */
  predicate Recorded(s: Scores, q: Request) {
    && s.mappedRoom == Some(q.roomCode)
    && s.room.Some? && s.room.value.gameId == Some(q.gameId)
    && q.playerId in s.players
    && SlotOf(q) in s.submissions && s.submissions[SlotOf(q)] == q.signature
  }

  lemma StepKeepsRecorded(s: Scores, c: Call, q: Request)
    requires Recorded(s, q)
    ensures Recorded(Step(s, c), q)
  {
    hide Fill, Complete;
  }

  lemma {:induction false} RunKeepsRecorded(s: Scores, calls: seq<Call>, q: Request)
    requires Recorded(s, q)
    ensures Recorded(Run(s, calls), q)
    decreases |calls|
  {
    hide Step, Recorded;
    if calls != [] {
      StepKeepsRecorded(s, calls[0], q);
      RunKeepsRecorded(Step(s, calls[0]), calls[1..], q);
    }
  }

  /**
   * Whatever calls came in between, a request for a round already confirmed
   * changes nothing: the same one is taken for the retry it is, another is a
   * conflict, and once the game is over both are told so.
   */
  lemma RetryChangesNothing(s: Scores, q: Request, between: seq<Call>, again: Request)
    requires Confirm(s, q).0 == Success0
    requires again.roomCode == q.roomCode && again.gameId == q.gameId && SlotOf(again) == SlotOf(q)
    ensures var s' := Run(Confirm(s, q).1, between);
            && s'.room.Some?
            && Confirm(s', again)
               == (if s'.room.value.phase != Playing then GameNotPlaying9
                   else if again.signature == q.signature then IdempotentRetry5 else RoundConflict4, s')
  {
    var first := Confirm(s, q).1;
    assert Recorded(first, q);
    RunKeepsRecorded(first, between, q);
    hide Run, Fill;
  }

  /** Every confirmed round stands in its player's sheet with what its dice are worth in its category. */
  ghost predicate SheetsMatch(s: Scores) {
    forall slot :: slot in s.submissions ==> Signed(s, slot)
  }

  predicate Signed(s: Scores, slot: Slot)
    requires slot in s.submissions
  {
    var signature := s.submissions[slot];
    && slot.playerId in s.boards
    && signature.category in s.boards[slot.playerId].cells
    && Score(signature.category, signature.dice) == Success(s.boards[slot.playerId].cells[signature.category])
  }

  lemma ConfirmKeepsMatch(s: Scores, q: Request)
    requires SheetsMatch(s) && q.signature.category == q.category
    requires Score(q.category, q.signature.dice) == Success(q.score)
    ensures SheetsMatch(Confirm(s, q).1)
  {
    hide Score;
    var s' := Confirm(s, q).1;
    if Guard(s, q).None? {
      GuardPassed(s, q);
      hide Guard;
      forall slot | slot in s'.submissions
        ensures Signed(s', slot)
      {
        if slot != SlotOf(q) { assert Signed(s, slot); }
      }
    }
  }

  lemma {:induction false} RunKeepsMatch(s: Scores, calls: seq<Call>)
    requires SheetsMatch(s) && forall c :: c in calls ==> FromService(c)
    ensures SheetsMatch(Run(s, calls))
    decreases |calls|
  {
    hide Score, Confirm, SheetsMatch;
    if calls != [] {
      assert calls[0] in calls;
      match calls[0] {
        case ConfirmCall(q) => ConfirmKeepsMatch(s, q);
        case FinishCall(g, force, required) => FinishKeepsMatch(s, g, force, required);
      }
      RunKeepsMatch(Step(s, calls[0]), calls[1..]);
    }
  }

  lemma FinishKeepsMatch(s: Scores, g: GameId, force: bool, required: int)
    requires SheetsMatch(s)
    ensures SheetsMatch(Finish(s, g, force, required).1)
  {
    hide CanFinish, Score;
    var s' := Finish(s, g, force, required).1;
    forall slot | slot in s'.submissions
      ensures Signed(s', slot)
    {
      assert Signed(s, slot);
    }
  }

  /** After any calls each scored round has its own cell, holding the score of the dice it was signed with. */
  lemma RoundsAreScoredAsSigned(s: Scores, calls: seq<Call>, slot: Slot)
    requires Clean(s) && forall c :: c in calls ==> FromService(c)
    requires slot in Run(s, calls).submissions
    ensures var end := Run(s, calls); var signature := end.submissions[slot];
            && slot.playerId in end.boards && signature.category in end.boards[slot.playerId].cells
            && Score(signature.category, signature.dice)
               == Success(end.boards[slot.playerId].cells[signature.category])
  {
    RunKeepsMatch(s, calls);
    hide Run, Score;
    assert Signed(Run(s, calls), slot);
  }

  /** Whatever calls race, the game ends at most once, and not at all if it was not being played. */
  lemma {:induction false} EndsOnce(s: Scores, calls: seq<Call>)
    ensures Enders(s, calls) <= if s.room.Some? && s.room.value.phase == Playing then 1 else 0
    decreases |calls|
  {
    if calls != [] {
      EndsOnce(Step(s, calls[0]), calls[1..]);
    }
  }

  /** Once over, the score sheet is final. */
  lemma {:induction false} FinalAfterFinish(s: Scores, calls: seq<Call>)
    requires s.room.Some? && s.room.value.phase == Phase.Finished
    ensures Run(s, calls) == s
    decreases |calls|
  {
    if calls != [] {
      FinalAfterFinish(s, calls[1..]);
    }
  }

  // ---------------------------------------------------------------------------
  // The scripts in place.

  class ScoreRoom {
    var scores: Scores

    constructor (scores: Scores)
      ensures this.scores == scores
    {
      this.scores := scores;
    }

    /** CONFIRM_SCORE: the guards, the running totals, the three writes. */
    method ConfirmScore(q: Request) returns (code: Code)
      modifies this
      ensures (code, scores) == Confirm(old(scores), q)
    {
      var refused := Guard(scores, q);
      if refused.Some? { return refused.value; }
      var board := BoardOf(scores, q.playerId);
      var subtotal, total := board.subtotal, board.total;
      if q.isUpper { subtotal := subtotal + q.score; }
      var bonus := if subtotal >= UPPER_BONUS_THRESHOLD then UPPER_BONUS_SCORE else 0;
      total := total + q.score + bonus - board.bonus;
      var sheet := Board(board.cells[q.category := q.score], subtotal, bonus, total);
      scores := scores.(boards := scores.boards[q.playerId := sheet]);
      scores := scores.(submissions := scores.submissions[SlotOf(q) := q.signature]);
      scores := scores.(totals := scores.totals[q.playerId := total]);
      return Success0;
    }

    /** FINISH_IF_COMPLETE: the loop over the roster stops at the first sheet that is not full. */
    method FinishIfComplete(gameId: GameId, force: bool, required: int) returns (ended: bool)
      modifies this
      ensures (ended, scores) == Finish(old(scores), gameId, force, required)
    {
      if scores.room.None? || scores.room.value.phase != Playing || scores.room.value.gameId != Some(gameId) {
        return false;
      }
      if !force {
        if scores.players == {} { return false; }
        var todo := scores.players;
        while todo != {}
          invariant scores == old(scores) && todo <= scores.players
          invariant forall p :: p in scores.players && p !in todo ==> |BoardOf(scores, p).cells| >= required
          decreases |todo|
        {
          var p :| p in todo;
          if |BoardOf(scores, p).cells| < required { return false; }
          todo := todo - {p};
        }
      }
      scores := scores.(room := Some(scores.room.value.(phase := Phase.Finished)));
      return true;
    }
  }
}
