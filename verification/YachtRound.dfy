/** Yacht: the round state of one room. Every transition yields a new state or an error. */
module YachtRound {
  import opened Wrappers

  type PlayerId(==, !new)

  datatype Category =
    | Ones | Twos | Threes | Fours | Fives | Sixes
    | Choice | FourOfAKind | FullHouse | SmallStraight | LargeStraight | Yacht

  const MAX_ROLL_COUNT := 3
  const DEFAULT_TOTAL_ROUNDS := 12
  const DICE_COUNT := 5
  const NO_HELD: seq<bool> := [false, false, false, false, false]

  datatype Error =
    | InvalidRound | InvalidPlayer | InvalidRoll | InvalidDice
    | AlreadySubmitted | GameAlreadyFinished | RoundMismatch | PlayerNotInRound | NotActivePlayer

  datatype Submission = Submission(playerId: PlayerId, roundNumber: int, dice: seq<int>, category: Category)

  datatype Roll = Roll(playerId: PlayerId, roundNumber: int, rollCount: int, held: seq<bool>, rolledDice: seq<int>)

  /** Submissions are kept in the order they were made. */
  datatype Round = Round(
    roundNumber: int,
    totalRounds: int,
    order: seq<PlayerId>,
    submissions: seq<Submission>,
    activeIndex: int,
    rollCount: int,
    dice: Option<seq<int>>,
    held: Option<seq<bool>>,
    finished: bool
  )

  datatype Completion = Completion(roundNumber: int, submitted: seq<PlayerId>, nextRoundNumber: int, gameCompleted: bool)

  datatype Advance = Advance(state: Round, completed: Option<Completion>)

  predicate DiceOk(dice: seq<int>) {
    |dice| == DICE_COUNT && forall i :: 0 <= i < |dice| ==> 1 <= dice[i] <= 6
  }

  predicate HeldOk(held: seq<bool>) {
    |held| == DICE_COUNT
  }

  predicate Distinct(players: seq<PlayerId>) {
    forall i, j :: 0 <= i < j < |players| ==> players[i] != players[j]
  }

  function Submitters(submissions: seq<Submission>): (players: seq<PlayerId>)
    ensures |players| == |submissions|
    ensures forall i :: 0 <= i < |players| ==> players[i] == submissions[i].playerId
  {
    seq(|submissions|, i requires 0 <= i < |submissions| => submissions[i].playerId)
  }

  /** What the constructor checks of every new instance. */
  function Restore(r: Round): Result<Round, Error> {
    if r.roundNumber < 1 || r.totalRounds < 1 || r.roundNumber > r.totalRounds then Failure(InvalidRound) else Success(r)
  }

  function Start(roundNumber: int, players: seq<PlayerId>, totalRounds: int): Result<Round, Error> {
    if !Distinct(players) || players == [] then Failure(InvalidPlayer)
    else Restore(Round(roundNumber, totalRounds, players, [], 0, 0, None, None, false))
  }

  function ActivePlayer(r: Round): Result<PlayerId, Error> {
    if 0 <= r.activeIndex < |r.order| then Success(r.order[r.activeIndex]) else Failure(InvalidPlayer)
  }

  /** The checks in their promised order; None passes. */
  function CurrentPlayerError(r: Round, playerId: PlayerId, roundNumber: int): Option<Error> {
    if r.finished then Some(GameAlreadyFinished)
    else if roundNumber != r.roundNumber then Some(RoundMismatch)
    else if playerId !in r.order then Some(PlayerNotInRound)
    else if ActivePlayer(r).Failure? then Some(ActivePlayer(r).error)
    else if ActivePlayer(r).value != playerId then Some(NotActivePlayer)
    else None
  }

  /** Held places keep the previous die. */
  function Merge(previous: Option<seq<int>>, rolled: seq<int>, held: seq<bool>): seq<int>
    requires |rolled| == |held|
  {
    if previous.None? then rolled
    else seq(|rolled|, i requires 0 <= i < |rolled| =>
               if held[i] && i < |previous.value| then previous.value[i] else rolled[i])
  }

  method MergeRolledDice(previous: Option<seq<int>>, rolled: seq<int>, held: seq<bool>) returns (next: seq<int>)
    requires |rolled| == |held|
    ensures next == Merge(previous, rolled, held)
  {
    next := rolled;
    if previous.None? { return; }
    for index := 0 to |held|
      invariant |next| == |rolled|
      invariant forall i :: 0 <= i < index ==> next[i] == if held[i] && i < |previous.value| then previous.value[i] else rolled[i]
      invariant forall i :: index <= i < |rolled| ==> next[i] == rolled[i]
    {
      if held[index] && index < |previous.value| {
        next := next[index := previous.value[index]];
      }
    }
  }

  function RecordRoll(r: Round, roll: Roll): Result<Round, Error>
  {
    var refused := CurrentPlayerError(r, roll.playerId, roll.roundNumber);
    if refused.Some? then Failure(refused.value)
    else if roll.rollCount < 1 || roll.rollCount > MAX_ROLL_COUNT || roll.rollCount != r.rollCount + 1 then
      Failure(InvalidRoll)
    else if !HeldOk(roll.held) then Failure(InvalidRoll)
    else if !DiceOk(roll.rolledDice) then Failure(InvalidDice)
    else if r.dice.None? && true in roll.held then Failure(InvalidRoll)
    else Restore(r.(rollCount := roll.rollCount, dice := Some(Merge(r.dice, roll.rolledDice, roll.held)),
                    held := Some(roll.held), finished := false))
  }

  function RecordHold(r: Round, playerId: PlayerId, roundNumber: int, held: seq<bool>): Result<Round, Error> {
    var refused := CurrentPlayerError(r, playerId, roundNumber);
    if refused.Some? then Failure(refused.value)
    else if r.dice.None? || !HeldOk(held) then Failure(InvalidRoll)
    else Restore(r.(held := Some(held), finished := false))
  }

  predicate HasRollsLeft(r: Round) {
    r.rollCount < MAX_ROLL_COUNT
  }

  function AutoRoll(r: Round, rolled: seq<int>): Result<Round, Error>
  {
    if !HasRollsLeft(r) then Failure(InvalidRoll)
    else if ActivePlayer(r).Failure? then Failure(ActivePlayer(r).error)
    else
      var held := if r.held.Some? then r.held.value else NO_HELD;
      RecordRoll(r, Roll(ActivePlayer(r).value, r.roundNumber, r.rollCount + 1, held, rolled))
  }

  function Submit(r: Round, s: Submission): Result<Advance, Error> {
    var refused := CurrentPlayerError(r, s.playerId, s.roundNumber);
    if refused.Some? then Failure(refused.value)
    else if r.dice.None? || r.dice.value != s.dice then Failure(InvalidDice)
    else if s.playerId in Submitters(r.submissions) then Failure(AlreadySubmitted)
    else AdvanceTurn(r, r.submissions + [s])
  }

  function Expire(r: Round): Result<Advance, Error> {
    if r.finished then Failure(GameAlreadyFinished) else AdvanceTurn(r, r.submissions)
  }

  function AdvanceTurn(r: Round, submissions: seq<Submission>): Result<Advance, Error> {
    if r.activeIndex < |r.order| - 1 then
      var next := Restore(r.(submissions := submissions, activeIndex := r.activeIndex + 1,
                             rollCount := 0, dice := None, held := None, finished := false));
      if next.Failure? then Failure(next.error) else Success(Advance(next.value, None))
    else CompleteRound(r, submissions)
  }

  function CompleteRound(r: Round, submissions: seq<Submission>): Result<Advance, Error> {
    var gameCompleted := r.roundNumber >= r.totalRounds;
    var completion := Completion(r.roundNumber, Submitters(submissions),
                                 if gameCompleted then r.roundNumber else r.roundNumber + 1, gameCompleted);
    var terminal := r.(submissions := submissions, rollCount := 0, dice := None, held := None, finished := true);
    var nextRound := terminal.(roundNumber := r.roundNumber + 1, submissions := [], activeIndex := 0, finished := false);
    var next := Restore(if gameCompleted then terminal else nextRound);
    if next.Failure? then Failure(next.error) else Success(Advance(next.value, Some(completion)))
  }

  function IndexOf(players: seq<PlayerId>, p: PlayerId): (i: nat)
    requires p in players
    ensures i < |players| && players[i] == p && p !in players[..i]
  {
    if players[0] == p then 0 else 1 + IndexOf(players[1..], p)
  }

  function WithoutParticipant(r: Round, playerId: PlayerId): Result<Round, Error> {
    if r.finished || playerId !in r.order then Success(r)
    else if ActivePlayer(r).Failure? then Failure(ActivePlayer(r).error)
    else if ActivePlayer(r).value == playerId then Failure(InvalidPlayer)
    else
      var removed := IndexOf(r.order, playerId);
      Restore(r.(order := r.order[..removed] + r.order[removed + 1..],
                 activeIndex := if removed < r.activeIndex then r.activeIndex - 1 else r.activeIndex,
                 finished := false))
  }

  // ---------------------------------------------------------------------------
  // Invariant.

  predicate TurnOk(r: Round) {
    && 1 <= r.roundNumber <= r.totalRounds
    && 0 <= r.activeIndex < |r.order|
    && Distinct(r.order)
    && (r.finished ==> r.roundNumber == r.totalRounds && r.activeIndex == |r.order| - 1)
  }

  /** Dice lie on the table exactly between the first roll and the end of the turn. */
  predicate RollsOk(r: Round) {
    && 0 <= r.rollCount <= MAX_ROLL_COUNT
    && (r.dice.Some? <==> r.rollCount > 0)
    && (r.held.Some? <==> r.rollCount > 0)
    && (r.dice.Some? ==> DiceOk(r.dice.value) && HeldOk(r.held.value))
    && (r.finished ==> r.rollCount == 0)
  }

  /** Nobody who is still to play this round has submitted. */
  ghost predicate SubmissionsOk(r: Round)
    requires TurnOk(r)
  {
    && Distinct(Submitters(r.submissions))
    && (forall s :: s in r.submissions ==> s.roundNumber == r.roundNumber && DiceOk(s.dice))
    && (!r.finished ==> forall i :: r.activeIndex <= i < |r.order| ==> r.order[i] !in Submitters(r.submissions))
  }

  ghost predicate Inv(r: Round) {
    TurnOk(r) && RollsOk(r) && SubmissionsOk(r)
  }

  lemma StartInv(roundNumber: int, players: seq<PlayerId>, totalRounds: int)
    requires Start(roundNumber, players, totalRounds).Success?
    ensures Inv(Start(roundNumber, players, totalRounds).value)
  {
  }

  lemma RecordRollInv(r: Round, roll: Roll)
    requires Inv(r) && RecordRoll(r, roll).Success?
    ensures Inv(RecordRoll(r, roll).value)
  {
  }

  lemma RecordHoldInv(r: Round, p: PlayerId, roundNumber: int, held: seq<bool>)
    requires Inv(r) && RecordHold(r, p, roundNumber, held).Success?
    ensures Inv(RecordHold(r, p, roundNumber, held).value)
  {
  }

  // ---------------------------------------------------------------------------
  // Rolls.

  /** An accepted roll keeps every held die and takes the rest from the server. */
  lemma RecordRollKeepsHeld(r: Round, roll: Roll)
    requires Inv(r) && RecordRoll(r, roll).Success?
    ensures var r' := RecordRoll(r, roll).value;
            && r'.rollCount == r.rollCount + 1 <= MAX_ROLL_COUNT
            && r'.held == Some(roll.held)
            && forall i :: 0 <= i < DICE_COUNT ==>
                 r'.dice.value[i] == if roll.held[i] then r.dice.value[i] else roll.rolledDice[i]
  {
    if r.dice.None? {
      assert forall i :: 0 <= i < DICE_COUNT ==> roll.held[i] in roll.held;
    }
  }

  /** The server can roll for a player exactly while the game goes on and rolls are left. */
  lemma AutoRollWorks(r: Round, rolled: seq<int>)
    requires Inv(r) && DiceOk(rolled)
    ensures AutoRoll(r, rolled).Success? <==> !r.finished && HasRollsLeft(r)
    ensures AutoRoll(r, rolled).Success? ==>
              && Inv(AutoRoll(r, rolled).value)
              && AutoRoll(r, rolled).value.rollCount == r.rollCount + 1
              && Remaining(AutoRoll(r, rolled).value) == Remaining(r)
              && ActivePlayer(AutoRoll(r, rolled).value) == ActivePlayer(r)
  {
  }

  // ---------------------------------------------------------------------------
  // Turns.

  /** Turns left in the game, the running one included. */
  function Remaining(r: Round): int {
    if r.finished then 0 else (r.totalRounds - r.roundNumber) * |r.order| + (|r.order| - r.activeIndex)
  }

  lemma RemainingPositive(r: Round)
    requires TurnOk(r)
    ensures Remaining(r) >= 0
    ensures Remaining(r) == 0 <==> r.finished
  {
    MulNonNegative(r.totalRounds - r.roundNumber, |r.order|);
  }

  lemma MulNonNegative(a: int, b: int)
    requires a >= 0 && b >= 0
    ensures a * b >= 0
  {
  }

  /** One turn over: exactly one fewer remains, and a round ends exactly with its last player. */
  lemma AdvanceTurnSound(r: Round, submissions: seq<Submission>)
    requires Inv(r) && !r.finished
    requires Distinct(Submitters(submissions))
    requires forall s :: s in submissions ==> s.roundNumber == r.roundNumber && DiceOk(s.dice)
    requires forall i :: r.activeIndex < i < |r.order| ==> r.order[i] !in Submitters(submissions)
    ensures AdvanceTurn(r, submissions).Success?
    ensures var a := AdvanceTurn(r, submissions).value;
            && Inv(a.state) && a.state.rollCount == 0
            && a.state.order == r.order && a.state.totalRounds == r.totalRounds
            && Remaining(a.state) == Remaining(r) - 1
            && (a.completed.Some? <==> r.activeIndex == |r.order| - 1)
            && (a.completed.Some? ==>
                  && a.completed.value == Completion(r.roundNumber, Submitters(submissions),
                                                     a.state.roundNumber, a.state.finished)
                  && (a.state.finished <==> r.roundNumber == r.totalRounds))
  {
    var a := AdvanceTurn(r, submissions).value;
    if a.completed.Some? && !a.state.finished {
      assert (r.totalRounds - r.roundNumber) * |r.order|
          == (r.totalRounds - a.state.roundNumber) * |r.order| + |r.order|;
    }
  }

  /** A submission is never refused as a second one, and takes exactly one turn. */
  lemma SubmitSound(r: Round, s: Submission)
    requires Inv(r)
    ensures Submit(r, s) != Failure(AlreadySubmitted)
    ensures Submit(r, s).Success? <==> CurrentPlayerError(r, s.playerId, s.roundNumber).None? && r.dice == Some(s.dice)
    ensures Submit(r, s).Success? ==>
              && Inv(Submit(r, s).value.state)
              && Remaining(Submit(r, s).value.state) == Remaining(r) - 1
              && Submit(r, s).value == AdvanceTurn(r, r.submissions + [s]).value
  {
    if CurrentPlayerError(r, s.playerId, s.roundNumber).None? && r.dice == Some(s.dice) {
      var submissions := r.submissions + [s];
      AppendSubmitter(r.submissions, s);
      AdvanceTurnSound(r, submissions);
    }
  }

  lemma AppendSubmitter(submissions: seq<Submission>, s: Submission)
    ensures Submitters(submissions + [s]) == Submitters(submissions) + [s.playerId]
  {
  }

  lemma ExpireSound(r: Round)
    requires Inv(r) && !r.finished
    ensures Expire(r).Success?
    ensures Inv(Expire(r).value.state) && Remaining(Expire(r).value.state) == Remaining(r) - 1
    ensures Expire(r).value == AdvanceTurn(r, r.submissions).value
  {
    AdvanceTurnSound(r, r.submissions);
  }

  lemma RemovalShape(r: Round, p: PlayerId)
    requires TurnOk(r) && !r.finished && p in r.order && r.order[r.activeIndex] != p
    ensures WithoutParticipant(r, p).Success?
    ensures var r' := WithoutParticipant(r, p).value;
            && TurnOk(r')
            && r' == r.(order := r'.order, activeIndex := r'.activeIndex)
            && (forall q :: q in r'.order <==> q in r.order && q != p)
            && r'.order[r'.activeIndex] == r.order[r.activeIndex]
            && (forall i :: 0 <= i < |r'.order| ==>
                  r'.order[i] == r.order[if i < IndexOf(r.order, p) then i else i + 1])
            && r'.activeIndex == r.activeIndex - (if IndexOf(r.order, p) < r.activeIndex then 1 else 0)
  {
    RemovedMembers(r.order, p);
  }

  /** Removing anyone but the active player keeps whose turn it is. */
  lemma WithoutParticipantInv(r: Round, p: PlayerId)
    requires Inv(r)
    ensures WithoutParticipant(r, p).Success? <==> r.finished || ActivePlayer(r).value != p
    ensures WithoutParticipant(r, p).Success? && !r.finished && p in r.order ==>
              var r' := WithoutParticipant(r, p).value;
              && Inv(r')
              && (forall q :: q in r'.order <==> q in r.order && q != p)
              && ActivePlayer(r') == ActivePlayer(r)
              && r' == r.(order := r'.order, activeIndex := r'.activeIndex)
  {
    if r.finished || p !in r.order {
    } else if r.order[r.activeIndex] == p {
    } else {
      RemovalShape(r, p);
      hide WithoutParticipant, Distinct;
    }
  }

  /** And the others keep their seats in order. */
  lemma WithoutParticipantOrder(r: Round, p: PlayerId, i: nat, j: nat)
    requires Inv(r) && WithoutParticipant(r, p).Success?
    requires i < j < |WithoutParticipant(r, p).value.order|
    ensures var order := WithoutParticipant(r, p).value.order;
            && order[i] in r.order && order[j] in r.order
            && IndexOf(r.order, order[i]) < IndexOf(r.order, order[j])
  {
    hide SubmissionsOk, RollsOk;
    var order := WithoutParticipant(r, p).value.order;
    var k := if r.finished || p !in r.order then |r.order| else IndexOf(r.order, p);
    assert forall h :: 0 <= h < |order| ==> order[h] == r.order[if h < k then h else h + 1] by {
      if !r.finished && p in r.order { RemovalShape(r, p); }
    }
    assert |order| == if k == |r.order| then k else |r.order| - 1;
    hide WithoutParticipant;
    IndexIs(r.order, if i < k then i else i + 1);
    IndexIs(r.order, if j < k then j else j + 1);
  }

  /** It takes away just the turns the removed player still had. */
  lemma WithoutParticipantTurns(r: Round, p: PlayerId)
    requires Inv(r) && !r.finished && p in r.order && ActivePlayer(r).value != p
    ensures WithoutParticipant(r, p).Success?
    ensures Remaining(WithoutParticipant(r, p).value)
            == Remaining(r) - (r.totalRounds - r.roundNumber) - (if IndexOf(r.order, p) > r.activeIndex then 1 else 0)
  {
    hide SubmissionsOk;
    var r' := WithoutParticipant(r, p).value;
    assert |r'.order| == |r.order| - 1;
    assert (r.totalRounds - r.roundNumber) * |r.order|
        == (r.totalRounds - r.roundNumber) * |r'.order| + (r.totalRounds - r.roundNumber);
  }

  lemma IndexIs(order: seq<PlayerId>, i: nat)
    requires Distinct(order) && i < |order|
    ensures order[i] in order && IndexOf(order, order[i]) == i
  {
    assert order[IndexOf(order, order[i])] == order[i];
  }

  lemma RemovedMembers(order: seq<PlayerId>, p: PlayerId)
    requires p in order && Distinct(order)
    ensures var k := IndexOf(order, p); var order' := order[..k] + order[k + 1..];
            && Distinct(order')
            && (forall q :: q in order' <==> q in order && q != p)
            && (forall i :: 0 <= i < |order'| ==> order'[i] == order[if i < k then i else i + 1])
  {
    var k := IndexOf(order, p);
    var order' := order[..k] + order[k + 1..];
    forall q | q in order && q != p
      ensures q in order'
    {
      var i :| 0 <= i < |order| && order[i] == q;
      assert order'[if i < k then i else i - 1] == q;
    }
  }

  // ---------------------------------------------------------------------------
  // A turn that is over.

  datatype Move =
    | RollMove(roll: Roll)
    | HoldMove(playerId: PlayerId, roundNumber: int, held: seq<bool>)
    | AutoRollMove(rolled: seq<int>)
    | SubmitMove(submission: Submission)
    | ExpireMove
    | RemoveMove(playerId: PlayerId)

  function Settled(r: Round, next: Result<Round, Error>): Round {
    if next.Success? then next.value else r
  }

  function SettledAdvance(r: Round, next: Result<Advance, Error>): Round {
    if next.Success? then next.value.state else r
  }

  /** The stored round after a transition; a refused one changes nothing. */
  function MoveOn(r: Round, m: Move): Round {
    match m
    case RollMove(roll) => Settled(r, RecordRoll(r, roll))
    case HoldMove(p, n, held) => Settled(r, RecordHold(r, p, n, held))
    case AutoRollMove(rolled) => Settled(r, AutoRoll(r, rolled))
    case SubmitMove(s) => SettledAdvance(r, Submit(r, s))
    case ExpireMove => SettledAdvance(r, Expire(r))
    case RemoveMove(p) => Settled(r, WithoutParticipant(r, p))
  }

  function MovesOn(r: Round, moves: seq<Move>): Round
    decreases |moves|
  {
    if moves == [] then r else MovesOn(MoveOn(r, moves[0]), moves[1..])
  }

  /** The player's turn of the round is behind the game. */
  predicate TurnOver(r: Round, p: PlayerId, roundNumber: int) {
    || r.finished
    || r.roundNumber > roundNumber
    || (r.roundNumber == roundNumber && (p !in r.order || IndexOf(r.order, p) < r.activeIndex))
  }

  lemma AdvanceKeepsOver(r: Round, submissions: seq<Submission>, p: PlayerId, roundNumber: int)
    requires TurnOk(r) && !r.finished && AdvanceTurn(r, submissions).Success?
    requires TurnOver(r, p, roundNumber) || (r.roundNumber == roundNumber && r.order[r.activeIndex] == p)
    ensures TurnOver(AdvanceTurn(r, submissions).value.state, p, roundNumber)
  {
    IndexIs(r.order, r.activeIndex);
  }

  lemma RemovalKeepsOver(r: Round, q: PlayerId, p: PlayerId, roundNumber: int)
    requires Inv(r) && TurnOver(r, p, roundNumber)
    ensures TurnOver(Settled(r, WithoutParticipant(r, q)), p, roundNumber)
  {
    hide SubmissionsOk, RollsOk;
    var next := WithoutParticipant(r, q);
    WithoutParticipantInv(r, q);
    if next.Success? && !r.finished && q in r.order && r.roundNumber == roundNumber && p in next.value.order {
      RemovedMembers(r.order, q);
      var k := IndexOf(r.order, q);
      var i := IndexOf(r.order, p);
      IndexIs(next.value.order, if i < k then i else i - 1);
    }
  }

  lemma RollsKeepTurn(r: Round, m: Move)
    requires Inv(r) && (m.RollMove? || m.HoldMove? || m.AutoRollMove?)
    ensures var r' := MoveOn(r, m);
            Inv(r') && r'.order == r.order && r'.activeIndex == r.activeIndex && r'.roundNumber == r.roundNumber
            && r'.totalRounds == r.totalRounds && r'.finished == r.finished
  {
    match m
    case RollMove(roll) => if RecordRoll(r, roll).Success? { RecordRollInv(r, roll); }
    case HoldMove(p, n, held) => if RecordHold(r, p, n, held).Success? { RecordHoldInv(r, p, n, held); }
    case AutoRollMove(rolled) =>
      if AutoRoll(r, rolled).Success? {
        var held := if r.held.Some? then r.held.value else NO_HELD;
        RecordRollInv(r, Roll(ActivePlayer(r).value, r.roundNumber, r.rollCount + 1, held, rolled));
      }
  }

  lemma MoveKeepsOver(r: Round, m: Move, p: PlayerId, roundNumber: int)
    requires Inv(r) && TurnOver(r, p, roundNumber)
    ensures Inv(MoveOn(r, m)) && TurnOver(MoveOn(r, m), p, roundNumber)
  {
    hide SubmissionsOk, RollsOk, RecordRoll, RecordHold, AutoRoll, WithoutParticipant, AdvanceTurn;
    match m
    case SubmitMove(s) =>
      SubmitSound(r, s);
      if Submit(r, s).Success? { AdvanceKeepsOver(r, r.submissions + [s], p, roundNumber); }
    case ExpireMove =>
      if !r.finished {
        ExpireSound(r);
        AdvanceKeepsOver(r, r.submissions, p, roundNumber);
      }
    case RemoveMove(q) =>
      WithoutParticipantInv(r, q);
      RemovalUnchanged(r, q);
      RemovalKeepsOver(r, q, p, roundNumber);
    case _ => RollsKeepTurn(r, m);
  }

  lemma RemovalUnchanged(r: Round, q: PlayerId)
    ensures r.finished || q !in r.order ==> WithoutParticipant(r, q) == Success(r)
  {
  }

  lemma {:induction false} MovesKeepOver(r: Round, moves: seq<Move>, p: PlayerId, roundNumber: int)
    requires Inv(r) && TurnOver(r, p, roundNumber)
    ensures Inv(MovesOn(r, moves)) && TurnOver(MovesOn(r, moves), p, roundNumber)
    decreases |moves|
  {
    hide Inv, TurnOver, MoveOn;
    if moves != [] {
      MoveKeepsOver(r, moves[0], p, roundNumber);
      MovesKeepOver(MoveOn(r, moves[0]), moves[1..], p, roundNumber);
    }
  }

  /** Why a player is refused whose turn is over: the first of these that is so. */
  function Lateness(r: Round, p: PlayerId, roundNumber: int): Error {
    if r.finished then GameAlreadyFinished
    else if r.roundNumber != roundNumber then RoundMismatch
    else if p !in r.order then PlayerNotInRound
    else NotActivePlayer
  }

  lemma OverIsRefused(r: Round, p: PlayerId, roundNumber: int)
    requires Inv(r) && TurnOver(r, p, roundNumber)
    ensures CurrentPlayerError(r, p, roundNumber) == Some(Lateness(r, p, roundNumber))
  {
    IndexIs(r.order, r.activeIndex);
  }

  /**
   * A turn is played once: after a submission, and whatever rolls, submissions,
   * expiries and removals follow, the same player's submissions, rolls and holds
   * for that round are refused, and told how late they are.
   */
  lemma TurnIsPlayedOnce(r: Round, s: Submission, moves: seq<Move>, again: Submission, roll: Roll, held: seq<bool>)
    requires Inv(r) && Submit(r, s).Success?
    requires again.playerId == s.playerId && again.roundNumber == s.roundNumber
    requires roll.playerId == s.playerId && roll.roundNumber == s.roundNumber
    ensures var late := MovesOn(Submit(r, s).value.state, moves);
            var why := Lateness(late, s.playerId, s.roundNumber);
            && Submit(late, again) == Failure(why)
            && RecordRoll(late, roll) == Failure(why)
            && RecordHold(late, s.playerId, s.roundNumber, held) == Failure(why)
  {
    SubmitSound(r, s);
    AdvanceKeepsOver(r, r.submissions + [s], s.playerId, s.roundNumber);
    var next := Submit(r, s).value.state;
    hide SubmissionsOk, RollsOk, AdvanceTurn;
    MovesKeepOver(next, moves, s.playerId, s.roundNumber);
    OverIsRefused(MovesOn(next, moves), s.playerId, s.roundNumber);
    hide MovesOn, CurrentPlayerError, Inv;
  }

  /** The same for a turn that expired. */
  lemma ExpiredTurnIsOver(r: Round, moves: seq<Move>, again: Submission)
    requires Inv(r) && !r.finished
    requires again.playerId == r.order[r.activeIndex] && again.roundNumber == r.roundNumber
    ensures Expire(r).Success?
    ensures var late := MovesOn(Expire(r).value.state, moves);
            Submit(late, again) == Failure(Lateness(late, again.playerId, again.roundNumber))
  {
    ExpireSound(r);
    AdvanceKeepsOver(r, r.submissions, again.playerId, again.roundNumber);
    var next := Expire(r).value.state;
    hide SubmissionsOk, RollsOk, AdvanceTurn;
    MovesKeepOver(next, moves, again.playerId, again.roundNumber);
    OverIsRefused(MovesOn(next, moves), again.playerId, again.roundNumber);
    hide MovesOn, CurrentPlayerError, Inv;
  }
}
