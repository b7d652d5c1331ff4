/**
 * Yacht: what a player, the server and the deadline do to a turn, said of the
 * round before and after, and what becomes of a hold until the turn is over.
 */
module YachtOutcomes {
  import opened Wrappers
  import opened YachtRound
  import opened YachtTimeout

  // ---------------------------------------------------------------- the rules

  /** A round starts with the first of its players, nothing rolled and nothing submitted. */
  ghost predicate StartRule(roundNumber: int, players: seq<PlayerId>, totalRounds: int, next: Result<Round, Error>) {
    if players == [] || exists i, j | 0 <= i < j < |players| :: players[i] == players[j] then next == Failure(InvalidPlayer)
    else if 1 <= roundNumber <= totalRounds then
      next == Success(Round(roundNumber, totalRounds, players, [], 0, 0, None, None, false))
    else next == Failure(InvalidRound)
  }

  /** The player is in the game and it is their turn of this round. */
  predicate OnTurn(r: Round, p: PlayerId, roundNumber: int) {
    && !r.finished && r.roundNumber == roundNumber
    && 0 <= r.activeIndex < |r.order| && r.order[r.activeIndex] == p
  }

  /** One more roll: a die at a held place stays, the rest come from the server. */
  ghost predicate Rolled(r: Round, held: seq<bool>, rolled: seq<int>, r': Round)
    requires |held| == 5 && |rolled| == 5
  {
    && r' == r.(rollCount := r.rollCount + 1, dice := r'.dice, held := Some(held))
    && r'.dice.Some? && |r'.dice.value| == 5
    && forall i | 0 <= i < 5 ::
         r'.dice.value[i] == if r.dice.Some? && |r.dice.value| == 5 && held[i] then r.dice.value[i] else rolled[i]
  }

  /** A player's own roll is the next of three, and the first of them can hold nothing. */
  ghost predicate RollRule(r: Round, roll: Roll, next: Result<Round, Error>) {
    if !OnTurn(r, roll.playerId, roll.roundNumber) then next == Failure(Lateness(r, roll.playerId, roll.roundNumber))
    else if roll.rollCount != r.rollCount + 1 || r.rollCount >= 3 || |roll.held| != 5 then next == Failure(InvalidRoll)
    else if |roll.rolledDice| != 5 || exists die | die in roll.rolledDice :: die < 1 || die > 6 then next == Failure(InvalidDice)
    else if r.rollCount == 0 && true in roll.held then next == Failure(InvalidRoll)
    else next.Success? && Rolled(r, roll.held, roll.rolledDice, next.value)
  }

  /** A hold replaces the one before as a whole, and touches nothing else. */
  ghost predicate HoldRule(r: Round, p: PlayerId, roundNumber: int, held: seq<bool>, next: Result<Round, Error>) {
    if !OnTurn(r, p, roundNumber) then next == Failure(Lateness(r, p, roundNumber))
    else if r.rollCount == 0 || |held| != 5 then next == Failure(InvalidRoll)
    else next == Success(r.(held := Some(held)))
  }

  /** The server rolls with what the player holds: before the first roll, nothing. */
  ghost predicate AutoRollRule(r: Round, rolled: seq<int>, next: Result<Round, Error>)
    requires DiceOk(rolled)
  {
    if r.rollCount >= 3 then next == Failure(InvalidRoll)
    else if r.finished then next == Failure(GameAlreadyFinished)
    else
      && next.Success?
      && if r.rollCount == 0 then next.value == r.(rollCount := 1, dice := Some(rolled), held := Some([false, false, false, false, false]))
         else r.held.Some? && |r.held.value| == 5 && Rolled(r, r.held.value, rolled, next.value)
  }

  /** The table is cleared and the next seat is to play; after the last seat comes the next round, after the last round nothing. */
  ghost predicate Passed(r: Round, submissions: seq<Submission>, a: Advance) {
    var r' := a.state;
    && r'.order == r.order && r'.totalRounds == r.totalRounds
    && r'.rollCount == 0 && r'.dice.None? && r'.held.None?
    && (r'.finished <==> r.roundNumber == r.totalRounds && r.activeIndex + 1 == |r.order|)
    && if r.activeIndex + 1 < |r.order| then
         && a.completed.None? && r'.roundNumber == r.roundNumber && r'.activeIndex == r.activeIndex + 1 && r'.submissions == submissions
       else
         && a.completed == Some(Completion(r.roundNumber, Submitters(submissions), r'.roundNumber, r'.finished))
         && if r'.finished then r'.roundNumber == r.roundNumber && r'.activeIndex == r.activeIndex && r'.submissions == submissions
            else r'.roundNumber == r.roundNumber + 1 && r'.activeIndex == 0 && r'.submissions == []
  }

  /** Only the very dice on the table can be scored. */
  ghost predicate SubmitRule(r: Round, s: Submission, next: Result<Advance, Error>) {
    if !OnTurn(r, s.playerId, s.roundNumber) then next == Failure(Lateness(r, s.playerId, s.roundNumber))
    else if r.dice != Some(s.dice) then next == Failure(InvalidDice)
    else next.Success? && Passed(r, r.submissions + [s], next.value)
  }

  ghost predicate ExpireRule(r: Round, next: Result<Advance, Error>) {
    if r.finished then next == Failure(GameAlreadyFinished)
    else next.Success? && Passed(r, r.submissions, next.value)
  }

  /**
   * A deadline that comes too late does nothing. In time, it rolls while rolls are
   * left; else the dice on the table are scored, and the turn passes, scored or not.
   */
  ghost predicate DeadlineRule(r: Round, d: Deadline, rolled: seq<int>, scoring: Scoring, out: Resolved)
    requires DiceOk(rolled)
  {
    if !OnTurn(r, d.playerId, d.roundNumber) then out == Resolved(Stale, Some(r))
    else if r.rollCount < 3 then
      && out.resolution.AutoRolled? && out.stored == Some(out.resolution.rolled)
      && AutoRollRule(r, rolled, Success(out.resolution.rolled))
    else
      && r.dice.Some?
      && match scoring
         case NoCategory => Passes(r, r.submissions, out)
         case Refused(_) => Passes(r, r.submissions, out)
         case Confirmed(c) => Passes(r, r.submissions + [Submission(d.playerId, d.roundNumber, r.dice.value, c)], out)
         case CommittedThenFailed(c) =>
           && out.resolution.Stale? && out.stored.Some?
           && exists a: Advance | Passed(r, r.submissions + [Submission(d.playerId, d.roundNumber, r.dice.value, c)], a) ::
                a.state == out.stored.value
  }

  ghost predicate Passes(r: Round, submissions: seq<Submission>, out: Resolved) {
    out.resolution.Advanced? && out.stored == Some(out.resolution.advanced.state) && Passed(r, submissions, out.resolution.advanced)
  }

  // ---------------------------------------------------------------- the transitions follow them

  lemma StartFollows(roundNumber: int, players: seq<PlayerId>, totalRounds: int)
    ensures StartRule(roundNumber, players, totalRounds, Start(roundNumber, players, totalRounds))
  {
  }

  lemma OnTurnIff(r: Round, p: PlayerId, roundNumber: int)
    requires Inv(r)
    ensures CurrentPlayerError(r, p, roundNumber)
            == if OnTurn(r, p, roundNumber) then None else Some(Lateness(r, p, roundNumber))
  {
  }

  lemma MergeRolls(r: Round, held: seq<bool>, rolled: seq<int>, r': Round)
    requires Inv(r) && |held| == 5 && |rolled| == 5
    requires r' == r.(rollCount := r.rollCount + 1, dice := Some(Merge(r.dice, rolled, held)), held := Some(held))
    ensures Rolled(r, held, rolled, r')
  {
    hide SubmissionsOk;
  }

  lemma RollFollows(r: Round, roll: Roll)
    requires Inv(r)
    ensures RollRule(r, roll, RecordRoll(r, roll))
  {
    OnTurnIff(r, roll.playerId, roll.roundNumber);
    assert DiceOk(roll.rolledDice) || |roll.rolledDice| != 5 || exists die | die in roll.rolledDice :: die < 1 || die > 6 by {
      if !DiceOk(roll.rolledDice) && |roll.rolledDice| == 5 {
        var i :| 0 <= i < 5 && !(1 <= roll.rolledDice[i] <= 6);
        assert roll.rolledDice[i] in roll.rolledDice;
      }
    }
    if RecordRoll(r, roll).Success? {
      MergeRolls(r, roll.held, roll.rolledDice, RecordRoll(r, roll).value);
    }
    hide Merge, Rolled, CurrentPlayerError, Lateness, OnTurn, SubmissionsOk;
  }

  lemma HoldFollows(r: Round, p: PlayerId, roundNumber: int, held: seq<bool>)
    requires Inv(r)
    ensures HoldRule(r, p, roundNumber, held, RecordHold(r, p, roundNumber, held))
  {
    OnTurnIff(r, p, roundNumber);
    hide CurrentPlayerError, Lateness, OnTurn, SubmissionsOk;
  }

  lemma AutoRollFollows(r: Round, rolled: seq<int>)
    requires Inv(r) && DiceOk(rolled)
    ensures AutoRollRule(r, rolled, AutoRoll(r, rolled))
  {
    if 0 < r.rollCount < 3 && !r.finished {
      MergeRolls(r, r.held.value, rolled, AutoRoll(r, rolled).value);
    }
    hide Rolled, SubmissionsOk;
  }

  lemma SubmitFollows(r: Round, s: Submission)
    requires Inv(r)
    ensures SubmitRule(r, s, Submit(r, s))
  {
    SubmitSound(r, s);
    OnTurnIff(r, s.playerId, s.roundNumber);
    hide CurrentPlayerError, Lateness, OnTurn, SubmissionsOk, Submitters;
  }

  lemma ExpireFollows(r: Round)
    requires Inv(r)
    ensures ExpireRule(r, Expire(r))
  {
    if !r.finished { ExpireSound(r); }
    hide SubmissionsOk, Submitters;
  }

  lemma StaleIff(r: Round, d: Deadline)
    requires Inv(r)
    ensures IsStale(r, d) <==> !OnTurn(r, d.playerId, d.roundNumber)
  {
  }

  lemma ScoredFollows(r: Round, d: Deadline, rolled: seq<int>, c: Category)
    requires Inv(r) && !IsStale(r, d) && r.rollCount == 3 && DiceOk(rolled)
    ensures DeadlineRule(r, d, rolled, Confirmed(c), Resolve(Some(r), d, rolled, Confirmed(c)))
    ensures DeadlineRule(r, d, rolled, CommittedThenFailed(c), Resolve(Some(r), d, rolled, CommittedThenFailed(c)))
  {
    StaleIff(r, d);
    OutOfRollsHasDice(r);
    ConfirmedIsSubmitted(r, d, rolled, c);
    FailureAfterCommitKeepsTurn(r, d, rolled, c);
    SubmitFollows(r, Submission(d.playerId, d.roundNumber, r.dice.value, c));
    hide Inv, Resolve, Submit, IsStale, Passed, OnTurn;
  }

  lemma UnscoredFollows(r: Round, d: Deadline, rolled: seq<int>, scoring: Scoring)
    requires Inv(r) && !IsStale(r, d) && r.rollCount == 3 && DiceOk(rolled) && (scoring.NoCategory? || scoring.Refused?)
    ensures DeadlineRule(r, d, rolled, scoring, Resolve(Some(r), d, rolled, scoring))
  {
    StaleIff(r, d);
    OutOfRollsHasDice(r);
    ExpireFollows(r);
    hide Inv, Submit, Expire, IsStale, Passed, OnTurn, AutoRoll;
  }

  lemma DeadlineFollows(r: Round, d: Deadline, rolled: seq<int>, scoring: Scoring)
    requires Inv(r) && DiceOk(rolled)
    ensures DeadlineRule(r, d, rolled, scoring, Resolve(Some(r), d, rolled, scoring))
  {
    StaleIff(r, d);
    if !IsStale(r, d) {
      if r.rollCount < 3 {
        AutoRollFollows(r, rolled);
        AutoRollWorks(r, rolled);
        hide Inv, AutoRoll, AutoRollRule, OnTurn, Remaining;
      } else {
        hide Resolve, DeadlineRule;
        match scoring
        case NoCategory => UnscoredFollows(r, d, rolled, scoring);
        case Refused(_) => UnscoredFollows(r, d, rolled, scoring);
        case Confirmed(c) => ScoredFollows(r, d, rolled, c);
        case CommittedThenFailed(c) => ScoredFollows(r, d, rolled, c);
      }
    }
  }

  // ---------------------------------------------------------------- a hold until the turn is over

  /** Anything but the player's own inputs and the end of the turn: others' inputs, departures and the server's rolls. */
  predicate LeavesTurn(p: PlayerId, m: Move) {
    match m
    case RollMove(roll) => roll.playerId != p
    case HoldMove(q, n, held) => q != p
    case AutoRollMove(rolled) => DiceOk(rolled)
    case SubmitMove(s) => s.playerId != p
    case ExpireMove => false
    case RemoveMove(q) => true
  }

  /** It is still the same turn, with the same hold, and the dice at its places are these. */
  predicate Holds(r: Round, p: PlayerId, roundNumber: int, held: seq<bool>, dice: seq<int>)
    requires |held| == 5 && |dice| == 5
  {
    && OnTurn(r, p, roundNumber) && r.held == Some(held) && r.dice.Some? && |r.dice.value| == 5
    && forall i | 0 <= i < 5 && held[i] :: r.dice.value[i] == dice[i]
  }

  lemma OthersRefused(r: Round, p: PlayerId, roundNumber: int, m: Move)
    requires Inv(r) && OnTurn(r, p, roundNumber) && LeavesTurn(p, m) && !m.AutoRollMove? && !m.RemoveMove?
    ensures MoveOn(r, m) == r
  {
    hide SubmissionsOk, RollsOk;
  }

  lemma MoveHolds(r: Round, p: PlayerId, roundNumber: int, held: seq<bool>, dice: seq<int>, m: Move)
    requires Inv(r) && |held| == 5 && |dice| == 5 && Holds(r, p, roundNumber, held, dice) && LeavesTurn(p, m)
    ensures Inv(MoveOn(r, m)) && Holds(MoveOn(r, m), p, roundNumber, held, dice)
  {
    hide SubmissionsOk, AutoRoll, WithoutParticipant;
    match m
    case AutoRollMove(rolled) =>
      AutoRollWorks(r, rolled);
      AutoRollFollows(r, rolled);
    case RemoveMove(q) =>
      WithoutParticipantInv(r, q);
      RemovalUnchanged(r, q);
    case _ => OthersRefused(r, p, roundNumber, m);
  }

  lemma {:induction false} MovesHold(r: Round, p: PlayerId, roundNumber: int, held: seq<bool>, dice: seq<int>, moves: seq<Move>)
    requires Inv(r) && |held| == 5 && |dice| == 5 && Holds(r, p, roundNumber, held, dice)
    requires forall m | m in moves :: LeavesTurn(p, m)
    ensures Inv(MovesOn(r, moves)) && Holds(MovesOn(r, moves), p, roundNumber, held, dice)
    decreases |moves|
  {
    hide Inv, Holds, MoveOn, LeavesTurn;
    if moves != [] {
      MoveHolds(r, p, roundNumber, held, dice, moves[0]);
      MovesHold(MoveOn(r, moves[0]), p, roundNumber, held, dice, moves[1..]);
    }
  }

  /**
   * A hold that was accepted stands to the end of the turn: whatever the others
   * try, whoever leaves and however often the server rolls, it is still the
   * player's turn and every die they held lies where it lay.
   */
  lemma HeldDiceStay(r: Round, p: PlayerId, roundNumber: int, held: seq<bool>, moves: seq<Move>)
    requires Inv(r) && RecordHold(r, p, roundNumber, held).Success?
    requires forall m | m in moves :: LeavesTurn(p, m)
    ensures r.dice.Some? && |r.dice.value| == 5 && |held| == 5
    ensures var late := MovesOn(RecordHold(r, p, roundNumber, held).value, moves);
            && Inv(late) && OnTurn(late, p, roundNumber) && late.held == Some(held)
            && late.dice.Some? && |late.dice.value| == 5
            && forall i | 0 <= i < 5 && held[i] :: late.dice.value[i] == r.dice.value[i]
  {
    HoldFollows(r, p, roundNumber, held);
    RecordHoldInv(r, p, roundNumber, held);
    MovesHold(RecordHold(r, p, roundNumber, held).value, p, roundNumber, held, r.dice.value, moves);
    hide SubmissionsOk, MovesOn, RecordHold;
  }
}
