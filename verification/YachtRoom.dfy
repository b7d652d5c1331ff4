/** Yacht: the room scripts, as far as the score sheets of one game see them. */
module YachtRoom {
  import opened Wrappers
  import opened YachtRound
  import opened YachtScore
  import D = YachtDice

  /**
   * `full`, `party` and `minPlayers` are what the room was made with; the lobby
   * is the phase Waiting.
   */
  datatype RoomCall =
    | CreateCall
    | JoinCall(playerId: PlayerId, full: bool)
    | LeaveCall(playerId: PlayerId, party: bool)
    | StartCall(gameId: GameId, minPlayers: nat)
    | CancelCall
    | ReturnCall

  const LOBBY := RoomHash(None, Waiting)

  /** The room is at this game, played or finished. */
  predicate On(s: Scores, game: GameId) {
    s.room.Some? && s.room.value.gameId == Some(game)
  }

  function Join(s: Scores, p: PlayerId, full: bool): Scores {
    if s.room.None? || s.room.value.phase != Waiting || p in s.players || full then s
    else s.(players := s.players + {p}, totals := s.totals[p := 0])
  }

  /** The last one out of a room that is not a party takes it along. */
  function Leave(s: Scores, p: PlayerId, party: bool): Scores {
    if s.room.None? || p !in s.players then s
    else
      var players := s.players - {p};
      if players == {} && !party then s.(room := None, players := {}, totals := map[])
      else s.(players := players, totals := s.totals - {p})
  }

  function StartGame(s: Scores, game: GameId, minPlayers: nat): Scores {
    if s.room.None? || s.room.value.phase != Waiting || |s.players| < minPlayers then s
    else s.(room := Some(RoomHash(Some(game), Playing)))
  }

  /** A game called off takes its own entry along. */
  function Cancel(s: Scores, ours: GameId): Scores {
    if s.room.None? || s.room.value.phase != Playing then s
    else s.(room := Some(LOBBY), mappedRoom := if On(s, ours) then None else s.mappedRoom)
  }

  /** The room's totals start over; the sheets stay. */
  function ReturnToLobby(s: Scores): Scores {
    if s.room.None? || s.room.value.phase != YachtScore.Phase.Finished then s
    else s.(room := Some(LOBBY), totals := s.totals + map p | p in s.players :: 0)
  }

  /** `ours` is the game whose sheets these are; a new game's id is a new one. */
  function RoomStep(s: Scores, ours: GameId, c: RoomCall): Scores {
    match c
    case CreateCall => if s.room.None? then s.(room := Some(LOBBY)) else s
    case JoinCall(p, full) => Join(s, p, full)
    case LeaveCall(p, party) => Leave(s, p, party)
    case StartCall(game, minPlayers) => if game == ours then s else StartGame(s, game, minPlayers)
    case CancelCall => Cancel(s, ours)
    case ReturnCall => ReturnToLobby(s)
  }

  /** No room script touches a sheet or a scored round. */
  lemma RoomKeepsSheets(s: Scores, ours: GameId, c: RoomCall)
    ensures RoomStep(s, ours, c).boards == s.boards && RoomStep(s, ours, c).submissions == s.submissions
  {
  }

  /** A game once off stays off, and while it is on nobody joins. */
  lemma RosterShrinks(s: Scores, ours: GameId, c: RoomCall)
    ensures On(RoomStep(s, ours, c), ours) ==>
              && On(s, ours)
              && (s.room.value.phase != Waiting ==>
                    && RoomStep(s, ours, c).players <= s.players
                    && RoomStep(s, ours, c).room == s.room && RoomStep(s, ours, c).mappedRoom == s.mappedRoom)
  {
  }

  /** While the game is on, the room shows each player's total as it stands on the sheet. */
  ghost predicate Ranked(s: Scores, game: GameId) {
    On(s, game) ==>
      && s.room.value.phase != Waiting
      && forall p :: p in s.players ==> p in s.totals && s.totals[p] == BoardOf(s, p).total
  }

  lemma RoomKeepsRanked(s: Scores, ours: GameId, c: RoomCall)
    requires Ranked(s, ours)
    ensures Ranked(RoomStep(s, ours, c), ours)
  {
  }

  lemma ConfirmKeepsRanked(s: Scores, game: GameId, q: Request)
    requires Ranked(s, game)
    ensures Ranked(Confirm(s, q).1, game)
  {
    hide Guard, Fill;
  }

  lemma FinishKeepsRanked(s: Scores, game: GameId, force: bool, required: int)
    requires Ranked(s, game)
    ensures Ranked(Finish(s, game, force, required).1, game)
  {
    hide Complete;
  }

  lemma RoomKeepsScores(s: Scores, ours: GameId, c: RoomCall)
    requires ScoresOk(s)
    ensures ScoresOk(RoomStep(s, ours, c))
  {
    RoomKeepsSheets(s, ours, c);
    hide RoomStep, BoardOk, ScoredRounds;
    forall p
      ensures Played(RoomStep(s, ours, c), p)
    {
      assert Played(s, p);
    }
  }

  lemma RoomKeepsMatch(s: Scores, ours: GameId, c: RoomCall)
    requires SheetsMatch(s)
    ensures SheetsMatch(RoomStep(s, ours, c))
  {
    RoomKeepsSheets(s, ours, c);
    hide RoomStep, D.Score;
    var s' := RoomStep(s, ours, c);
    forall slot | slot in s'.submissions
      ensures Signed(s', slot)
    {
      assert Signed(s, slot);
    }
  }
}
