/** Yacht: what confirming a score and ending a game answer, and what they and a whole turn leave, in plain terms. */
module ScoreOutcomes {
  import opened Wrappers
  import opened YachtRound
  import opened YachtDice
  import opened YachtScore
  import opened YachtRoom
  import O = YachtOutcomes
  import G = YachtGame

  /** The game is being played in this room, by this player, who has neither scored the round nor used the category. */
  predicate MayScore(s: Scores, q: Request) {
    && s.mappedRoom == Some(q.roomCode)
    && s.room.Some? && s.room.value.gameId == Some(q.gameId) && s.room.value.phase == Playing
    && q.playerId in s.players
    && Slot(q.playerId, q.roundNumber) !in s.submissions
    && (q.playerId in s.boards ==> q.category !in s.boards[q.playerId].cells)
  }

  /** What each code tells its receiver, the first that is so. */
  predicate Means(s: Scores, q: Request, code: Code) {
    var here := s.mappedRoom == Some(q.roomCode);
    var game := here && s.room.Some? && s.room.value.gameId == Some(q.gameId);
    var playing := game && s.room.value.phase == Playing;
    var present := playing && q.playerId in s.players;
    var slot := Slot(q.playerId, q.roundNumber);
    match code
    case GameMissing1 => s.mappedRoom.None?
    case GameRoomChanged2 => s.mappedRoom.Some? && !here
    case RoomMissing7 => here && s.room.None?
    case RoomGameChanged8 => here && s.room.Some? && !game
    case GameNotPlaying9 => game && !playing
    case PlayerMissing3 => playing && !present
    case IdempotentRetry5 => present && slot in s.submissions && s.submissions[slot] == q.signature
    case RoundConflict4 => present && slot in s.submissions && s.submissions[slot] != q.signature
    case CategoryConflict6 =>
      present && slot !in s.submissions && q.playerId in s.boards && q.category in s.boards[q.playerId].cells
    case Success0 => MayScore(s, q)
  }

  /** One cell more, the round taken under its signature, and the totals moved by the score and a bonus just reached. */
  ghost predicate Scored(s: Scores, q: Request, s': Scores) {
    var p := q.playerId;
    var before := if p in s.boards then s.boards[p] else EMPTY_BOARD;
    && s' == s.(boards := s'.boards, submissions := s'.submissions, totals := s'.totals)
    && s'.boards.Keys == s.boards.Keys + {p} && (forall x | x in s.boards && x != p :: s'.boards[x] == s.boards[x])
    && s'.submissions.Keys == s.submissions.Keys + {Slot(p, q.roundNumber)}
    && (forall x | x in s.submissions :: s'.submissions[x] == s.submissions[x])
    && s'.submissions[Slot(p, q.roundNumber)] == q.signature
    && s'.totals.Keys == s.totals.Keys + {p} && (forall x | x in s.totals && x != p :: s'.totals[x] == s.totals[x])
    && s'.totals[p] == s'.boards[p].total
    && s'.boards[p].cells.Keys == before.cells.Keys + {q.category}
    && (forall c | c in before.cells :: s'.boards[p].cells[c] == before.cells[c])
    && s'.boards[p].cells[q.category] == q.score
    && s'.boards[p].subtotal - before.subtotal == (if q.isUpper then q.score else 0)
    && s'.boards[p].bonus == (if s'.boards[p].subtotal >= 63 then 35 else 0)
    && s'.boards[p].total - before.total == q.score + (s'.boards[p].bonus - before.bonus)
  }

  /** Every request gets the one code that is so, and scores exactly on success. */
  lemma ConfirmTells(s: Scores, q: Request)
    ensures var (code, s') := Confirm(s, q);
            && (forall other: Code :: Means(s, q, other) <==> other == code)
            && if code == Success0 then Scored(s, q, s') else s' == s
  {
    hide Fill;
    if Guard(s, q).None? { FillIs(BoardOf(s, q.playerId), q); }
  }

  lemma FillIs(b: Board, q: Request)
    requires q.category !in b.cells
    ensures var b' := Fill(b, q);
            && b'.cells.Keys == b.cells.Keys + {q.category} && b'.cells[q.category] == q.score
            && (forall c | c in b.cells :: b'.cells[c] == b.cells[c])
            && b'.subtotal - b.subtotal == (if q.isUpper then q.score else 0)
            && b'.bonus == (if b'.subtotal >= 63 then 35 else 0)
            && b'.total - b.total == q.score + (b'.bonus - b.bonus)
  {
  }

  /** Somebody plays, and everybody has that many cells. */
  ghost predicate EverySheetHas(s: Scores, cells: int) {
    (exists p :: p in s.players) && forall p | p in s.players :: (if p in s.boards then |s.boards[p].cells| else 0) >= cells
  }

  /** The game in play ends if that is forced or every sheet is full; nothing else is touched. */
  lemma FinishTells(s: Scores, gameId: GameId, force: bool, required: int)
    ensures var (ended, s') := Finish(s, gameId, force, required);
            && (ended <==> s.room == Some(RoomHash(Some(gameId), Playing)) && (force || EverySheetHas(s, required)))
            && s' == if ended then s.(room := Some(RoomHash(Some(gameId), Phase.Finished))) else s
  {
    assert Complete(s, required) <==> EverySheetHas(s, required) by {
      forall p ensures |BoardOf(s, p).cells| == if p in s.boards then |s.boards[p].cells| else 0 {
        assert p !in s.boards ==> BoardOf(s, p).cells == map[];
      }
      hide BoardOf;
      if x :| x in s.players { assert s.players != {}; }
    }
    hide Complete, EverySheetHas;
  }

  lemma StepPhase(s: Scores, c: Call)
    ensures var s' := Step(s, c);
            && (s'.room.Some? <==> s.room.Some?)
            && (s.room.Some? ==> s'.room.value.gameId == s.room.value.gameId)
            && s'.room == if c.FinishCall? && Finish(s, c.gameId, c.force, c.required).0
                          then Some(s.room.value.(phase := Phase.Finished)) else s.room
  {
    hide Guard, Fill, Complete;
  }

  /** Of all the calls that race to end a game one is told that it did, exactly if the game is over afterwards. */
  lemma {:induction false} OneEnder(s: Scores, calls: seq<Call>)
    requires s.room.Some? && s.room.value.phase == Playing
    ensures Run(s, calls).room.Some? && Run(s, calls).room.value.gameId == s.room.value.gameId
    ensures Enders(s, calls) == if Run(s, calls).room.value.phase == Phase.Finished then 1 else 0
    ensures Run(s, calls).room.value.phase == Playing || Run(s, calls).room.value.phase == Phase.Finished
    decreases |calls|
  {
    if calls != [] {
      StepPhase(s, calls[0]);
      hide Step, Complete;
      var s' := Step(s, calls[0]);
      if s'.room.value.phase == Playing {
        OneEnder(s', calls[1..]);
      } else {
        FinalAfterFinish(s', calls[1..]);
        EndsOnce(s', calls[1..]);
      }
    }
  }

  /**
   * Who is in the room after a call: in the lobby of a room that is not full
   * anyone can join, and whoever is there can leave at any time; nothing else
   * lets anyone in or out.
   */
  lemma RosterTells(s: Scores, ours: GameId, c: RoomCall, p: PlayerId)
    requires s.room.Some?
    ensures var s' := RoomStep(s, ours, c);
            p in s'.players <==>
            && c != LeaveCall(p, true) && c != LeaveCall(p, false)
            && (p in s.players || (c == JoinCall(p, false) && s.room.value.phase == Waiting))
  {
  }

  /**
   * What the room is at after a call: a start with enough players puts it at the
   * new game, a game called off or over goes back to the lobby, and the last one
   * to leave closes a room that is no party.
   */
  lemma RoomTells(s: Scores, ours: GameId, c: RoomCall)
    requires s.room.Some? && (c.StartCall? ==> c.gameId != ours)
    ensures var s' := RoomStep(s, ours, c); var phase := s.room.value.phase;
            s'.room ==
            if c.StartCall? && phase == Waiting && |s.players| >= c.minPlayers then Some(RoomHash(Some(c.gameId), Playing))
            else if (c.CancelCall? && phase == Playing) || (c.ReturnCall? && phase == Phase.Finished) then Some(RoomHash(None, Waiting))
            else if c.LeaveCall? && !c.party && s.players == {c.playerId} then None
            else s.room
  {
    if c.LeaveCall? && s.players - {c.playerId} == {} && c.playerId in s.players {
      assert s.players == {c.playerId};
    }
  }

  /** The points the room shows: nought for who joins and for everyone back in the lobby, none for who has left. */
  lemma TotalsTell(s: Scores, ours: GameId, c: RoomCall, p: PlayerId)
    requires s.room.Some? && RoomStep(s, ours, c).room.Some?
    ensures var s' := RoomStep(s, ours, c);
            (if p in s'.totals then Some(s'.totals[p]) else None) ==
            if p in s'.players && (p !in s.players || (c.ReturnCall? && s.room.value.phase == Phase.Finished)) then Some(0)
            else if p in s.players && p !in s'.players then None
            else if p in s.totals then Some(s.totals[p]) else None
  {
  }

  // ---------------------------------------------------------------- a turn played to its end

  function RequestFor(g: G.Game, s: Submission): Request
    requires DiceOk(s.dice)
  {
    Request(g.roomCode, g.gameId, s.playerId, s.roundNumber, s.category, Score(s.category, s.dice).value, IsUpper(s.category),
            Signature(s.category, s.dice))
  }

  /** The player to move scores the dice on the table in a line of the card that is free. */
  predicate MayPlay(g: G.Game, s: Submission) {
    && g.pending.None? && O.OnTurn(g.round, s.playerId, s.roundNumber) && g.round.dice == Some(s.dice)
    && DiceOk(s.dice) && MayScore(g.scores, RequestFor(g, s))
  }

  /** Its score is stored, and the turn is not passed yet. */
  lemma ConfirmsFirst(g: G.Game, s: Submission)
    requires G.GameInv(g) && MayPlay(g, s)
    ensures var q := RequestFor(g, s);
            && Confirm(g.scores, q).0 == Success0 && Submit(g.round, s).Success?
            && G.Step(g, G.ConfirmScore(s)) == g.(scores := Confirm(g.scores, q).1, pending := Some(s))
  {
    var q := RequestFor(g, s);
    ConfirmTells(g.scores, q);
    O.SubmitFollows(g.round, s);
    assert Means(g.scores, q, Success0);
    assert q == G.RequestOf(g, s, Score(s.category, s.dice).value);
    hide Score, Confirm, Submit, Inv, ScoresOk, SheetsMatch, AllCalculated, O.OnTurn, MayScore, Scored;
  }

  lemma ThenCommits(g: G.Game, s: Submission)
    requires g.pending == Some(s) && Submit(g.round, s).Success?
    ensures G.Step(g, G.CommitTurn)
            == g.(round := Submit(g.round, s).value.state, pending := None, committed := g.committed + {s})
  {
    hide Submit;
  }

  lemma RunTwo(g: G.Game, a: G.Move, b: G.Move)
    ensures G.Run(g, [a, b]) == G.Step(G.Step(g, a), b)
  {
    hide G.Step;
    assert [a, b][1..] == [b] && [b][1..] == [];
    assert G.Run(G.Step(G.Step(g, a), b), []) == G.Step(G.Step(g, a), b);
    assert G.Run(G.Step(g, a), [b]) == G.Run(G.Step(G.Step(g, a), b), []);
  }

  lemma PlayedTo(g: G.Game, s: Submission)
    requires G.GameInv(g) && MayPlay(g, s)
    ensures Submit(g.round, s).Success?
    ensures G.Run(g, [G.ConfirmScore(s), G.CommitTurn])
            == g.(scores := Confirm(g.scores, RequestFor(g, s)).1, round := Submit(g.round, s).value.state,
                  committed := g.committed + {s})
  {
    RunTwo(g, G.ConfirmScore(s), G.CommitTurn);
    ConfirmsFirst(g, s);
    ThenCommits(G.Step(g, G.ConfirmScore(s)), s);
    hide Confirm, Submit, G.GameInv, G.Run, G.Step, RequestFor;
  }

  lemma CellPays(g: G.Game, s: Submission)
    requires G.GameInv(g) && MayPlay(g, s)
    ensures var scores := Confirm(g.scores, RequestFor(g, s)).1;
            && s.playerId in scores.boards && s.category in scores.boards[s.playerId].cells
            && scores.boards[s.playerId].cells[s.category]
               == Pays(s.category, multiset(s.dice), s.dice[0] + s.dice[1] + s.dice[2] + s.dice[3] + s.dice[4])
  {
    ConfirmsFirst(g, s);
    CardPays(s.category, s.dice);
    hide Score, Confirm, G.GameInv, Pays, MayScore;
    ConfirmTells(g.scores, RequestFor(g, s));
  }

  /** A turn that is confirmed and committed counts: the line holds what the card pays for the dice, and the turn is passed. */
  lemma TurnIsPlayed(g: G.Game, s: Submission)
    requires G.GameInv(g) && MayPlay(g, s)
    ensures var end := G.Run(g, [G.ConfirmScore(s), G.CommitTurn]);
            && s in end.committed && end.pending.None?
            && (exists a: Advance :: a.state == end.round && O.Passed(g.round, g.round.submissions + [s], a))
            && s.playerId in end.scores.boards && s.category in end.scores.boards[s.playerId].cells
            && end.scores.boards[s.playerId].cells[s.category]
               == Pays(s.category, multiset(s.dice), s.dice[0] + s.dice[1] + s.dice[2] + s.dice[3] + s.dice[4])
  {
    PlayedTo(g, s);
    CellPays(g, s);
    O.SubmitFollows(g.round, s);
    hide Confirm, Submit, G.GameInv, O.Passed, G.Run, Pays, MayScore, RequestFor;
  }

  /** While no score waits to be committed the other moves are the round's own, and touch no sheet. */
  lemma MovesAreTheRounds(g: G.Game, m: G.Move, move: YachtRound.Move)
    requires g.pending.None?
    requires match m
             case Roll(roll) => move == RollMove(roll)
             case Hold(p, n, held) => move == HoldMove(p, n, held)
             case AutoRoll(rolled) => move == AutoRollMove(rolled)
             case ExpireTurn => move == ExpireMove
             case RemoveParticipant(p) => move == RemoveMove(p)
             case _ => false
    ensures G.Step(g, m).round == MoveOn(g.round, move) && G.Step(g, m).scores == g.scores
    ensures G.Step(g, m).committed == g.committed && G.Step(g, m).pending.None?
  {
    hide RecordRoll, RecordHold, YachtRound.AutoRoll, Expire, WithoutParticipant;
  }

  lemma ConfirmsAgain(g: G.Game, s: Submission)
    requires G.GameInv(g) && MayPlay(g, s)
    ensures var crashed := G.Step(G.Step(g, G.ConfirmScore(s)), G.Crash);
            G.Step(crashed, G.ConfirmScore(s)) == G.Step(g, G.ConfirmScore(s))
  {
    var q := RequestFor(g, s);
    ConfirmsFirst(g, s);
    ConfirmTells(g.scores, q);
    var after := Confirm(g.scores, q).1;
    assert q == G.RequestOf(g, s, Score(s.category, s.dice).value);
    hide Score, Confirm, Submit, Inv, G.GameInv;
    ConfirmTells(after, q);
    assert Means(after, q, IdempotentRetry5);
  }

  /**
   * A process that stops after the score was stored and before the turn was
   * committed loses nothing: the same submission sent again is taken for the
   * retry it is, and the game goes on as if it had not stopped.
   */
  lemma CrashIsRepaired(g: G.Game, s: Submission)
    requires G.GameInv(g) && MayPlay(g, s)
    ensures G.Run(g, [G.ConfirmScore(s), G.Crash, G.ConfirmScore(s), G.CommitTurn])
            == G.Run(g, [G.ConfirmScore(s), G.CommitTurn])
  {
    RunTwo(g, G.ConfirmScore(s), G.CommitTurn);
    ConfirmsAgain(g, s);
    var moves := [G.ConfirmScore(s), G.Crash, G.ConfirmScore(s), G.CommitTurn];
    var crashed := G.Step(G.Step(g, G.ConfirmScore(s)), G.Crash);
    hide G.Step, G.GameInv;
    assert moves[1..] == [G.Crash, G.ConfirmScore(s), G.CommitTurn] && moves[1..][1..] == [G.ConfirmScore(s), G.CommitTurn];
    assert G.Run(g, moves) == G.Run(crashed, [G.ConfirmScore(s), G.CommitTurn]);
    RunTwo(crashed, G.ConfirmScore(s), G.CommitTurn);
  }
}
