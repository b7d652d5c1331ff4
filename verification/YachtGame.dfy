/**
 * Yacht: the round state and the score sheets of one game, coupled by "confirm
 * the score, then commit the turn", with a crash possible between the two.
 */
module YachtGame {
  import opened Wrappers
  import opened Sets
  import opened YachtRound
  import opened YachtScore
  import opened YachtRoom
  import D = YachtDice

  /**
   * `pending` is a submission whose score is confirmed and whose turn is not
   * committed; the room lock keeps other changes of the round out meanwhile.
   * `committed` and `skipped` only record the past.
   */
  datatype Game = Game(
    round: Round,
    scores: Scores,
    roomCode: RoomCode,
    gameId: GameId,
    pending: Option<Submission>,
    committed: set<Submission>,
    skipped: bool
  )

  datatype Move =
    | Roll(roll: YachtRound.Roll)
    | Hold(playerId: PlayerId, roundNumber: int, held: seq<bool>)
    | AutoRoll(rolled: seq<int>)
    | ConfirmScore(submission: Submission)
    | CommitTurn
    | Crash                          // the process stops, or the commit fails, with the score already stored
    | ExpireTurn
    | RemoveParticipant(playerId: PlayerId)
    | RoomScript(call: RoomCall)     // takes no round lock
    | FinishGame(force: bool)

  function RequestOf(g: Game, s: Submission, score: int): Request {
    Request(g.roomCode, g.gameId, s.playerId, s.roundNumber, s.category, score, D.IsUpper(s.category),
            Signature(s.category, s.dice))
  }

  function SlotFor(s: Submission): Slot {
    Slot(s.playerId, s.roundNumber)
  }

  predicate Locked(m: Move) {
    !m.CommitTurn? && !m.Crash? && !m.RoomScript? && !m.FinishGame?
  }

  function Step(g: Game, m: Move): Game {
    if Locked(m) && g.pending.Some? then g
    else
      match m
      case Roll(roll) => g.(round := Settled(g.round, RecordRoll(g.round, roll)))
      case Hold(p, n, held) => g.(round := Settled(g.round, RecordHold(g.round, p, n, held)))
      case AutoRoll(rolled) => g.(round := Settled(g.round, YachtRound.AutoRoll(g.round, rolled)))
      case ConfirmScore(s) => StepConfirm(g, s)
      case CommitTurn => if g.pending.Some? then StepCommit(g, g.pending.value) else g
      case Crash => g.(pending := None)
      case ExpireTurn =>
        var a := Expire(g.round);
        if a.Success? then g.(round := a.value.state, skipped := true) else g
      case RemoveParticipant(p) => g.(round := Settled(g.round, WithoutParticipant(g.round, p)), skipped := true)
      case RoomScript(c) =>
        var scores := RoomStep(g.scores, g.gameId, c);
        g.(scores := scores, skipped := g.skipped || scores != g.scores)
      case FinishGame(force) => g.(scores := Finish(g.scores, g.gameId, force, REQUIRED_CATEGORIES).1)
  }

  /** The round is checked first; then the score is confirmed, and a refusal leaves the round alone. */
  function StepConfirm(g: Game, s: Submission): Game {
    var score := D.Score(s.category, s.dice);
    if Submit(g.round, s).Failure? || score.Failure? then g
    else
      var (code, scores) := Confirm(g.scores, RequestOf(g, s, score.value));
      if code == Success0 || code == IdempotentRetry5 then g.(scores := scores, pending := Some(s)) else g
  }

  function StepCommit(g: Game, s: Submission): Game {
    var a := Submit(g.round, s);
    if a.Failure? then g.(pending := None)
    else g.(round := a.value.state, pending := None, committed := g.committed + {s})
  }

  // ---------------------------------------------------------------------------
  // Invariant.

  /** No score is stored for a round that has not begun. */
  ghost predicate NoFutureScores(submissions: map<Slot, Signature>, roundNumber: int) {
    forall slot :: slot in submissions ==> 1 <= slot.roundNumber <= roundNumber
  }

  /** The submission's own category and dice are what its round was scored with. */
  predicate SignedFor(submissions: map<Slot, Signature>, s: Submission) {
    SlotFor(s) in submissions && submissions[SlotFor(s)] == Signature(s.category, s.dice)
  }

  ghost predicate PendingOk(g: Game) {
    g.pending.Some? ==> Submit(g.round, g.pending.value).Success? && SignedFor(g.scores.submissions, g.pending.value)
  }

  ghost predicate GameInv(g: Game) {
    && Inv(g.round) && g.round.totalRounds == DEFAULT_TOTAL_ROUNDS
    && ScoresOk(g.scores) && SheetsMatch(g.scores) && AllCalculated(g.scores) && Ranked(g.scores, g.gameId)
    && NoFutureScores(g.scores.submissions, g.round.roundNumber)
    && (forall s :: s in g.committed ==> SignedFor(g.scores.submissions, s))
    && PendingOk(g)
  }

  /** Rounds never go back. */
  lemma RoundsGoOn(g: Game, m: Move)
    requires Inv(g.round)
    ensures Inv(Step(g, m).round) && Step(g, m).round.totalRounds == g.round.totalRounds
    ensures g.round.roundNumber <= Step(g, m).round.roundNumber
  {
    hide SubmissionsOk, RollsOk, StepConfirm, RecordRoll, RecordHold, YachtRound.AutoRoll, Submit, Expire, WithoutParticipant;
    match m
    case Roll(roll) => RollsKeepTurn(g.round, RollMove(roll));
    case Hold(p, n, held) => RollsKeepTurn(g.round, HoldMove(p, n, held));
    case AutoRoll(rolled) => RollsKeepTurn(g.round, AutoRollMove(rolled));
    case ConfirmScore(s) => ConfirmLeavesRound(g, s);
    case CommitTurn => if g.pending.Some? && Submit(g.round, g.pending.value).Success? { SubmitGoesOn(g.round, g.pending.value); }
    case ExpireTurn => if Expire(g.round).Success? { ExpireGoesOn(g.round); }
    case RemoveParticipant(p) => RemoveGoesOn(g.round, p);
    case _ =>
  }

  lemma ConfirmLeavesRound(g: Game, s: Submission)
    ensures StepConfirm(g, s).round == g.round
  {
    hide D.Score, Confirm, Submit;
  }

  lemma SubmitGoesOn(r: Round, s: Submission)
    requires Inv(r) && Submit(r, s).Success?
    ensures var r' := Submit(r, s).value.state;
            Inv(r') && r'.totalRounds == r.totalRounds && r.roundNumber <= r'.roundNumber
  {
    SubmitSound(r, s);
  }

  lemma ExpireGoesOn(r: Round)
    requires Inv(r) && Expire(r).Success?
    ensures var r' := Expire(r).value.state;
            Inv(r') && r'.totalRounds == r.totalRounds && r.roundNumber <= r'.roundNumber
  {
    ExpireSound(r);
  }

  lemma RemoveGoesOn(r: Round, p: PlayerId)
    requires Inv(r)
    ensures var r' := Settled(r, WithoutParticipant(r, p));
            Inv(r') && r'.totalRounds == r.totalRounds && r.roundNumber <= r'.roundNumber
  {
    WithoutParticipantInv(r, p);
  }

  lemma StepKeepsGame(g: Game, m: Move)
    requires GameInv(g)
    ensures GameInv(Step(g, m))
  {
    hide SubmissionsOk, RollsOk, ScoresOk, SheetsMatch, AllCalculated, Ranked, Submit, StepConfirm, RecordRoll, RecordHold,
         YachtRound.AutoRoll, Expire, WithoutParticipant, Finish, RoomStep;
    RoundsGoOn(g, m);
    match m
    case ConfirmScore(s) => ConfirmKeepsGame(g, s);
    case FinishGame(force) => FinishKeeps(g.scores, g.gameId, force);
    case RoomScript(c) => RoomKeeps(g.scores, g.gameId, c);
    case _ =>
  }

  lemma FinishKeeps(s: Scores, game: GameId, force: bool)
    requires ScoresOk(s) && SheetsMatch(s) && AllCalculated(s) && Ranked(s, game)
    ensures var s' := Finish(s, game, force, REQUIRED_CATEGORIES).1;
            ScoresOk(s') && SheetsMatch(s') && AllCalculated(s') && Ranked(s', game) && s'.submissions == s.submissions
  {
    hide ScoresOk, SheetsMatch, AllCalculated, Ranked, CanFinish;
    FinishKeepsScores(s, game, force, REQUIRED_CATEGORIES);
    FinishKeepsMatch(s, game, force, REQUIRED_CATEGORIES);
    FinishKeepsSheets(s, game, force, REQUIRED_CATEGORIES);
    FinishKeepsRanked(s, game, force, REQUIRED_CATEGORIES);
  }

  lemma RoomKeeps(s: Scores, game: GameId, c: RoomCall)
    requires ScoresOk(s) && SheetsMatch(s) && AllCalculated(s) && Ranked(s, game)
    ensures var s' := RoomStep(s, game, c);
            ScoresOk(s') && SheetsMatch(s') && AllCalculated(s') && Ranked(s', game) && s'.submissions == s.submissions
  {
    hide RoomStep, ScoresOk, SheetsMatch, CellsCalculated, Ranked;
    RoomKeepsScores(s, game, c);
    RoomKeepsMatch(s, game, c);
    RoomKeepsSheets(s, game, c);
    RoomKeepsRanked(s, game, c);
  }

  lemma ConfirmKeepsGame(g: Game, s: Submission)
    requires GameInv(g)
    ensures GameInv(StepConfirm(g, s))
    ensures StepConfirm(g, s) != g ==>
              StepConfirm(g, s) == g.(scores := StepConfirm(g, s).scores, pending := Some(s)) &&
              Submit(g.round, s).Success?
  {
    hide SubmissionsOk, RollsOk, ScoresOk, SheetsMatch, AllCalculated, Ranked, D.Score, Confirm, Submit, Inv;
    var score := D.Score(s.category, s.dice);
    if Submit(g.round, s).Success? && score.Success? {
      var q := RequestOf(g, s, score.value);
      ConfirmOk(g.scores, q);
      ConfirmKeepsMatch(g.scores, q);
      ConfirmCalculated(g.scores, q);
      ConfirmKeepsRanked(g.scores, g.gameId, q);
      ConfirmRecords(g.scores, q);
      SubmitsNow(g.round, s);
    }
  }

  lemma SubmitsNow(r: Round, s: Submission)
    requires Inv(r) && Submit(r, s).Success?
    ensures 1 <= r.roundNumber == s.roundNumber
  {
  }

  /** A confirmation that is not refused leaves the slot recorded under the request's signature, and no other slot changed. */
  lemma ConfirmRecords(s: Scores, q: Request)
    ensures var (code, s') := Confirm(s, q);
            && (code == Success0 || code == IdempotentRetry5 ==>
                  s'.submissions.Keys == s.submissions.Keys + {SlotOf(q)} && s'.submissions[SlotOf(q)] == q.signature)
            && (forall slot :: slot in s.submissions ==> slot in s'.submissions && s'.submissions[slot] == s.submissions[slot])
            && (code != Success0 ==> s' == s)
            && s'.players == s.players && s'.room == s.room
  {
    hide Fill;
  }

  // ---------------------------------------------------------------------------
  // Runs.

  function Run(g: Game, moves: seq<Move>): Game
    decreases |moves|
  {
    if moves == [] then g else Run(Step(g, moves[0]), moves[1..])
  }

  /** A game just started: joining and returning to the lobby have set every total to zero. */
  function NewGame(players: seq<PlayerId>, roomCode: RoomCode, gameId: GameId): Result<Game, Error> {
    var r := Start(1, players, DEFAULT_TOTAL_ROUNDS);
    if r.Failure? then Failure(r.error)
    else Success(Game(r.value, Scores(Some(roomCode), Some(RoomHash(Some(gameId), Playing)),
                                      set p | p in players, map[], map[], map p | p in players :: 0),
                      roomCode, gameId, None, {}, false))
  }

  lemma NewGameInv(players: seq<PlayerId>, roomCode: RoomCode, gameId: GameId)
    requires NewGame(players, roomCode, gameId).Success?
    ensures GameInv(NewGame(players, roomCode, gameId).value)
  {
    StartInv(1, players, DEFAULT_TOTAL_ROUNDS);
    CleanOk(NewGame(players, roomCode, gameId).value.scores);
    hide ScoresOk, AllCalculated, SubmissionsOk;
  }

  lemma {:induction false} RunKeepsGame(g: Game, moves: seq<Move>)
    requires GameInv(g)
    ensures GameInv(Run(g, moves))
    decreases |moves|
  {
    hide GameInv, Step;
    if moves != [] {
      StepKeepsGame(g, moves[0]);
      RunKeepsGame(Step(g, moves[0]), moves[1..]);
    }
  }

  /**
   * After any run, crashes included: every committed submission was confirmed as
   * itself, and its cell holds what its own dice are worth in its own category;
   * and no score is for a round to come.
   */
  lemma CommittedIsConfirmed(
      players: seq<PlayerId>, roomCode: RoomCode, gameId: GameId, moves: seq<Move>)
    requires NewGame(players, roomCode, gameId).Success?
    ensures var g := Run(NewGame(players, roomCode, gameId).value, moves);
            && (forall s :: s in g.committed ==>
                  && SignedFor(g.scores.submissions, s)
                  && s.playerId in g.scores.boards && s.category in g.scores.boards[s.playerId].cells
                  && D.Score(s.category, s.dice) == Success(g.scores.boards[s.playerId].cells[s.category]))
            && forall slot :: slot in g.scores.submissions ==> 1 <= slot.roundNumber <= g.round.roundNumber <= 12
  {
    var g := NewGame(players, roomCode, gameId).value;
    NewGameInv(players, roomCode, gameId);
    hide NewGame, Run, Inv, D.Score;
    RunKeepsGame(g, moves);
    var end := Run(g, moves);
    RoundAtMostCap(end.round);
    forall s | s in end.committed
      ensures Signed(end.scores, SlotFor(s))
    {
      assert SignedFor(end.scores.submissions, s);
    }
  }

  lemma RoundAtMostCap(r: Round)
    requires Inv(r)
    ensures r.roundNumber <= r.totalRounds
  {
  }

  // ---------------------------------------------------------------------------
  // The roster.

  lemma StepShrinksRoster(g: Game, m: Move)
    requires Ranked(g.scores, g.gameId)
    ensures Step(g, m).gameId == g.gameId
    ensures On(Step(g, m).scores, g.gameId) ==> On(g.scores, g.gameId) && Step(g, m).scores.players <= g.scores.players
  {
    hide Submit, RecordRoll, RecordHold, YachtRound.AutoRoll, Expire, WithoutParticipant, RoomStep, D.Score, Confirm, Complete;
    match m
    case ConfirmScore(s) =>
      var score := D.Score(s.category, s.dice);
      if score.Success? { ConfirmRecords(g.scores, RequestOf(g, s, score.value)); }
    case RoomScript(c) => RosterShrinks(g.scores, g.gameId, c);
    case _ =>
  }

  /** A game once off stays off, and nobody joins while it is on. */
  lemma {:induction false} RosterOnlyShrinks(g: Game, moves: seq<Move>)
    requires GameInv(g)
    ensures Run(g, moves).gameId == g.gameId
    ensures On(Run(g, moves).scores, g.gameId) ==> On(g.scores, g.gameId) && Run(g, moves).scores.players <= g.scores.players
    decreases |moves|
  {
    if moves != [] {
      StepKeepsGame(g, moves[0]);
      StepShrinksRoster(g, moves[0]);
      hide GameInv, Step, On;
      RosterOnlyShrinks(Step(g, moves[0]), moves[1..]);
    }
  }

  /** The room is at another game, or the player is out of the room. */
  predicate Away(g: Game, p: PlayerId) {
    !On(g.scores, g.gameId) || p !in g.scores.players
  }

  lemma ConfirmOfOthers(s: Scores, q: Request, p: PlayerId)
    requires !On(s, q.gameId) || p !in s.players
    ensures BoardOf(Confirm(s, q).1, p) == BoardOf(s, p)
    ensures ScoredRounds(Confirm(s, q).1.submissions, p) == ScoredRounds(s.submissions, p)
  {
    hide Fill;
    if Guard(s, q).None? {
      GuardPassed(s, q);
      assert q.playerId != p;
      OneMoreRound(s.submissions, SlotOf(q), q.signature, p);
    }
  }

  lemma StepFreezes(g: Game, m: Move, p: PlayerId)
    requires Ranked(g.scores, g.gameId) && Away(g, p)
    ensures Away(Step(g, m), p)
    ensures BoardOf(Step(g, m).scores, p) == BoardOf(g.scores, p)
    ensures ScoredRounds(Step(g, m).scores.submissions, p) == ScoredRounds(g.scores.submissions, p)
  {
    StepShrinksRoster(g, m);
    hide Submit, RecordRoll, RecordHold, YachtRound.AutoRoll, Expire, WithoutParticipant, RoomStep, D.Score, Confirm, CanFinish,
         ScoredRounds, On;
    match m
    case ConfirmScore(s) =>
      var score := D.Score(s.category, s.dice);
      if score.Success? { ConfirmOfOthers(g.scores, RequestOf(g, s, score.value), p); }
    case RoomScript(c) => RoomKeepsSheets(g.scores, g.gameId, c);
    case _ =>
  }

  /**
   * Whoever has left, or whose game the room has dropped, never scores in it
   * again: whatever follows, joining the next game included, the sheet and the
   * scored rounds stay as they were.
   */
  lemma {:induction false} LeaverIsFrozen(g: Game, moves: seq<Move>, p: PlayerId)
    requires GameInv(g) && Away(g, p)
    ensures Away(Run(g, moves), p)
    ensures BoardOf(Run(g, moves).scores, p) == BoardOf(g.scores, p)
    ensures ScoredRounds(Run(g, moves).scores.submissions, p) == ScoredRounds(g.scores.submissions, p)
    decreases |moves|
  {
    if moves != [] {
      StepKeepsGame(g, moves[0]);
      StepFreezes(g, moves[0], p);
      hide GameInv, Step, Away, BoardOf, ScoredRounds;
      LeaverIsFrozen(Step(g, moves[0]), moves[1..], p);
    }
  }

  /**
   * After any run, while the room is still at the game: the roster is part of
   * those who started it, and the room ranks each by the total of their own
   * sheet, at most 323.
   */
  lemma RosterIsRanked(players: seq<PlayerId>, roomCode: RoomCode, gameId: GameId, moves: seq<Move>, p: PlayerId)
    requires NewGame(players, roomCode, gameId).Success?
    requires var s := Run(NewGame(players, roomCode, gameId).value, moves).scores; On(s, gameId) && p in s.players
    ensures var s := Run(NewGame(players, roomCode, gameId).value, moves).scores;
            && p in players
            && p in s.totals && s.totals[p] == BoardOf(s, p).total
            && s.totals[p] == CellSum(BoardOf(s, p)) + BoardOf(s, p).bonus
            && 0 <= s.totals[p] <= 323
  {
    hide NewGame, Run, GameInv, On, CellSum, BoardOf;
    var g := NewGame(players, roomCode, gameId).value;
    NewGameInv(players, roomCode, gameId);
    NewGameRoster(players, roomCode, gameId);
    RosterOnlyShrinks(g, moves);
    RunKeepsGame(g, moves);
    RankedTotal(Run(g, moves), p);
  }

  lemma NewGameRoster(players: seq<PlayerId>, roomCode: RoomCode, gameId: GameId)
    requires NewGame(players, roomCode, gameId).Success?
    ensures NewGame(players, roomCode, gameId).value.gameId == gameId
    ensures forall p :: p in NewGame(players, roomCode, gameId).value.scores.players <==> p in players
  {
  }

  lemma RankedTotal(g: Game, p: PlayerId)
    requires GameInv(g) && On(g.scores, g.gameId) && p in g.scores.players
    ensures var s := g.scores;
            && p in s.totals && s.totals[p] == BoardOf(s, p).total
            && s.totals[p] == CellSum(BoardOf(s, p)) + BoardOf(s, p).bonus
            && 0 <= s.totals[p] <= 323
  {
    hide Inv, SheetsMatch, NoFutureScores, PendingOk, CellSum, Played, AllCalculated;
    SheetTotal(g.scores, p);
  }

  lemma SheetTotal(s: Scores, p: PlayerId)
    requires Played(s, p) && AllCalculated(s)
    ensures BoardOf(s, p).total == CellSum(BoardOf(s, p)) + BoardOf(s, p).bonus
    ensures 0 <= BoardOf(s, p).total <= 323
  {
    EmptyIsCalculated(s, p);
    TotalAtMost(BoardOf(s, p));
    hide CellSum;
  }

  lemma EmptyIsCalculated(s: Scores, p: PlayerId)
    requires AllCalculated(s)
    ensures CellsCalculated(BoardOf(s, p))
  {
    hide D.MaxScore;
  }

  // ---------------------------------------------------------------------------
  // The end of the game.

  function Slots(p: PlayerId, rounds: nat): (s: set<Slot>)
    ensures |s| == rounds
    ensures forall slot :: slot in s <==> slot.playerId == p && 1 <= slot.roundNumber <= rounds
  {
    if rounds == 0 then {} else Slots(p, rounds - 1) + {Slot(p, rounds)}
  }

  lemma FullSheetsMeanTheEnd(g: Game)
    requires GameInv(g) && CanFinish(g.scores, g.gameId, false, REQUIRED_CATEGORIES)
    ensures g.round.roundNumber == 12 && g.scores.players != {}
    ensures forall p :: p in g.scores.players ==> ScoredRounds(g.scores.submissions, p) == Slots(p, 12)
  {
    hide Inv, BoardOk;
    RoundAtMostCap(g.round);
    RoundPositive(g.round);
    forall p | p in g.scores.players
      ensures g.round.roundNumber == 12 && ScoredRounds(g.scores.submissions, p) == Slots(p, 12)
    {
      assert Played(g.scores, p);
      SizeMonotone(ScoredRounds(g.scores.submissions, p), Slots(p, g.round.roundNumber));
    }
    var p :| p in g.scores.players;
  }

  /** After any run: the unforced check passes in round 12 only, with every round of every roster player scored. */
  lemma UnforcedFinishIsComplete(
      players: seq<PlayerId>, roomCode: RoomCode, gameId: GameId, moves: seq<Move>)
    requires NewGame(players, roomCode, gameId).Success?
    requires var g := Run(NewGame(players, roomCode, gameId).value, moves);
             CanFinish(g.scores, g.gameId, false, REQUIRED_CATEGORIES)
    ensures var g := Run(NewGame(players, roomCode, gameId).value, moves);
            && g.round.roundNumber == 12 && g.scores.players != {}
            && forall p :: p in g.scores.players ==> ScoredRounds(g.scores.submissions, p) == Slots(p, 12)
  {
    NewGameInv(players, roomCode, gameId);
    hide NewGame, Run, GameInv, CanFinish;
    RunKeepsGame(NewGame(players, roomCode, gameId).value, moves);
    FullSheetsMeanTheEnd(Run(NewGame(players, roomCode, gameId).value, moves));
  }

  lemma RoundPositive(r: Round)
    requires Inv(r)
    ensures r.roundNumber >= 1
  {
  }

  /** The rounds the player at a seat has behind them when nobody was skipped. */
  function Behind(r: Round, seat: int): int {
    if r.finished || seat < r.activeIndex then r.roundNumber else r.roundNumber - 1
  }

  ghost predicate AllScored(g: Game) {
    !g.skipped ==>
      && g.scores.players == (set p | p in g.round.order)
      && forall seat, n :: 0 <= seat < |g.round.order| && 1 <= n <= Behind(g.round, seat) ==>
           Slot(g.round.order[seat], n) in g.scores.submissions
  }

  lemma CommitKeepsScored(g: Game)
    requires GameInv(g) && AllScored(g) && g.pending.Some?
    ensures AllScored(StepCommit(g, g.pending.value))
  {
    hide ScoresOk, SubmissionsOk, RollsOk;
    var g' := StepCommit(g, g.pending.value);
    CommitDetails(g.round, g.pending.value);
    hide Submit;
    if !g.skipped {
      forall seat, n | 0 <= seat < |g'.round.order| && 1 <= n <= Behind(g'.round, seat)
        ensures Slot(g'.round.order[seat], n) in g'.scores.submissions
      {
        if n > Behind(g.round, seat) {
          assert Slot(g.round.order[seat], n) == SlotFor(g.pending.value);
        }
      }
    }
  }

  lemma CommitDetails(r: Round, s: Submission)
    requires Inv(r) && Submit(r, s).Success?
    ensures var a := Submit(r, s).value;
            && a.state.order == r.order
            && s.roundNumber == r.roundNumber && s.playerId == r.order[r.activeIndex] && !r.finished
            && (forall seat :: 0 <= seat < |r.order| ==>
                  Behind(a.state, seat) == if seat == r.activeIndex then r.roundNumber else Behind(r, seat))
            && (a.completed.Some? ==>
                  && r.activeIndex == |r.order| - 1
                  && (a.completed.value.gameCompleted <==> r.roundNumber == r.totalRounds)
                  && (a.completed.value.gameCompleted <==> a.state.finished))
  {
    SubmitSound(r, s);
    hide SubmissionsOk, RollsOk;
  }

  lemma StepKeepsScored(g: Game, m: Move)
    requires GameInv(g) && AllScored(g)
    ensures AllScored(Step(g, m))
  {
    hide ScoresOk, SubmissionsOk, RollsOk, StepConfirm, StepCommit, RecordRoll, RecordHold, YachtRound.AutoRoll,
         WithoutParticipant, Finish, Expire, RoomStep;
    match m
    case Roll(roll) => RollsKeepTurn(g.round, RollMove(roll));
    case Hold(p, n, held) => RollsKeepTurn(g.round, HoldMove(p, n, held));
    case AutoRoll(rolled) => RollsKeepTurn(g.round, AutoRollMove(rolled));
    case ConfirmScore(s) => ConfirmKeepsScored(g, s);
    case CommitTurn => if g.pending.Some? { CommitKeepsScored(g); }
    case FinishGame(force) => FinishKeepsRoster(g.scores, g.gameId, force);
    case RoomScript(c) => RoomKeepsSheets(g.scores, g.gameId, c);
    case _ =>
  }

  lemma ConfirmKeepsScored(g: Game, s: Submission)
    requires AllScored(g)
    ensures AllScored(StepConfirm(g, s))
  {
    hide D.Score, Confirm, Submit;
    var score := D.Score(s.category, s.dice);
    if Submit(g.round, s).Success? && score.Success? {
      ConfirmRecords(g.scores, RequestOf(g, s, score.value));
    }
  }

  lemma FinishKeepsRoster(s: Scores, gameId: GameId, force: bool)
    ensures var s' := Finish(s, gameId, force, REQUIRED_CATEGORIES).1;
            s'.players == s.players && s'.submissions == s.submissions
  {
    hide CanFinish;
  }

  lemma {:induction false} RunKeepsScored(g: Game, moves: seq<Move>)
    requires GameInv(g) && AllScored(g)
    ensures AllScored(Run(g, moves))
    decreases |moves|
  {
    hide GameInv, Step, AllScored;
    if moves != [] {
      StepKeepsGame(g, moves[0]);
      StepKeepsScored(g, moves[0]);
      RunKeepsScored(Step(g, moves[0]), moves[1..]);
    }
  }

  lemma FullSheet(g: Game, seat: nat)
    requires GameInv(g) && AllScored(g) && !g.skipped && g.round.finished && seat < |g.round.order|
    ensures |BoardOf(g.scores, g.round.order[seat]).cells| >= REQUIRED_CATEGORIES
  {
    hide BoardOk, SubmissionsOk, RollsOk, NoFutureScores, PendingOk;
    var p := g.round.order[seat];
    assert Played(g.scores, p);
    hide ScoresOk;
    assert Slots(p, 12) <= ScoredRounds(g.scores.submissions, p);
    SizeMonotone(Slots(p, 12), ScoredRounds(g.scores.submissions, p));
  }

  /** Everyone's sheet is full once the game has run to its cap without a skip. */
  lemma FinishedIsComplete(g: Game)
    requires GameInv(g) && AllScored(g) && !g.skipped && g.round.finished
    ensures Complete(g.scores, REQUIRED_CATEGORIES)
  {
    RoundPositive(g.round);
    var order := g.round.order;
    assert |order| > 0 && g.scores.players == set p | p in order;
    forall seat | 0 <= seat < |order|
      ensures |BoardOf(g.scores, order[seat]).cells| >= REQUIRED_CATEGORIES
    {
      FullSheet(g, seat);
    }
    hide GameInv, AllScored;
    assert order[0] in g.scores.players;
  }

  /** Nobody's sheet is full before round 12 has been played. */
  lemma EarlyIsIncomplete(g: Game, s: Scores)
    requires GameInv(g) && g.round.roundNumber < 12 && g.scores == s
    ensures !Complete(s, REQUIRED_CATEGORIES)
  {
    hide BoardOk, Inv;
    RoundPositive(g.round);
    if s.players != {} {
      var p :| p in s.players;
      assert Played(s, p);
      SizeMonotone(ScoredRounds(s.submissions, p), Slots(p, g.round.roundNumber));
    }
  }

  /**
   * In a game without skips or removals, crashes allowed: when a turn completes
   * a round, the full-sheets check says the same as the round cap.
   */
  lemma ChecksAgree(players: seq<PlayerId>, roomCode: RoomCode, gameId: GameId, moves: seq<Move>)
    requires NewGame(players, roomCode, gameId).Success?
    requires var g := Run(NewGame(players, roomCode, gameId).value, moves);
             !g.skipped && g.pending.Some? && Submit(g.round, g.pending.value).Success?
             && Submit(g.round, g.pending.value).value.completed.Some?
    ensures var g := Run(NewGame(players, roomCode, gameId).value, moves);
            Complete(Step(g, CommitTurn).scores, REQUIRED_CATEGORIES)
            <==> Submit(g.round, g.pending.value).value.completed.value.gameCompleted
  {
    hide NewGame, Run, GameInv, AllScored, Complete, Submit, Inv;
    var g0 := NewGame(players, roomCode, gameId).value;
    NewGameInv(players, roomCode, gameId);
    NewGameScored(players, roomCode, gameId);
    RunKeepsGame(g0, moves);
    RunKeepsScored(g0, moves);
    var g := Run(g0, moves);
    CommitCompletes(g);
    StepKeepsGame(g, CommitTurn);
    StepKeepsScored(g, CommitTurn);
    if Submit(g.round, g.pending.value).value.completed.value.gameCompleted {
      FinishedIsComplete(Step(g, CommitTurn));
    } else {
      EarlyIsIncomplete(g, Step(g, CommitTurn).scores);
    }
  }

  lemma CommitCompletes(g: Game)
    requires GameInv(g) && g.pending.Some? && Submit(g.round, g.pending.value).Success?
    requires Submit(g.round, g.pending.value).value.completed.Some?
    ensures var over := Submit(g.round, g.pending.value).value.completed.value.gameCompleted;
            (over <==> Step(g, CommitTurn).round.finished) && (!over ==> g.round.roundNumber < 12)
            && Step(g, CommitTurn).scores == g.scores
  {
    hide ScoresOk, SubmissionsOk, RollsOk;
    CommitDetails(g.round, g.pending.value);
    hide Submit;
  }

  lemma NewGameScored(players: seq<PlayerId>, roomCode: RoomCode, gameId: GameId)
    requires NewGame(players, roomCode, gameId).Success?
    ensures AllScored(NewGame(players, roomCode, gameId).value)
  {
  }
}
