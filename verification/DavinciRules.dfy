/** Da Vinci Code: dealing, the turn flow, and the five transitions. Every rule takes a state and returns a new one. */
module DavinciRules {
  import opened Wrappers
  import opened DavinciState

  // ---------------------------------------------------------------- dealing

  datatype SetupError = RequiresTwoToFourPlayers | DuplicatePlayer | InvalidDeckOrder

  /** The unshuffled 26 tiles: twelve numbers and a joker of each colour. */
  function StandardFace(i: nat): Face
    requires i < DECK_SIZE
  {
    Face(if i < 13 then Black else White, if i % 13 == 12 then JOKER else i % 13)
  }

  ghost predicate NoDuplicates<T(!new)>(s: seq<T>) {
    forall i, j | 0 <= i < j < |s| :: s[i] != s[j]
  }

  predicate Distinct<T(==)>(s: seq<T>) {
    |set x | x in s| == |s|
  }

  function HandSize(players: nat): nat {
    if players >= 4 then 3 else 4
  }

  function Shuffled(order: seq<int>): (tiles: seq<Tile>)
    requires forall i | 0 <= i < |order| :: 0 <= order[i] < DECK_SIZE
    ensures |tiles| == |order|
    ensures forall i | 0 <= i < |tiles| :: tiles[i] == Tile(i, StandardFace(order[i]), false)
  {
    seq(|order|, i requires 0 <= i < |order| => Tile(i, StandardFace(order[i]), false))
  }

  function NonJokers(tiles: seq<Tile>): (kept: seq<Tile>)
    ensures forall t :: t in kept <==> t in tiles && !IsJoker(t)
  {
    if tiles == [] then []
    else if IsJoker(tiles[0]) then NonJokers(tiles[1..])
    else [tiles[0]] + NonJokers(tiles[1..])
  }

  function Without(tiles: seq<Tile>, ids: set<nat>): (kept: seq<Tile>)
    ensures forall t :: t in kept <==> t in tiles && t.id !in ids
  {
    if tiles == [] then []
    else if tiles[0].id in ids then Without(tiles[1..], ids)
    else [tiles[0]] + Without(tiles[1..], ids)
  }

  /** A slice that, like the source's, stops at the end of the sequence. */
  function Slice(s: seq<Tile>, from: nat, to: nat): (r: seq<Tile>)
    requires from <= to
    ensures forall t | t in r :: t in s
  {
    var hi := if to < |s| then to else |s|;
    if from <= hi then s[from..hi] else []
  }

  function Sorted(hand: seq<Tile>): seq<Tile> {
    if hand == [] then []
    else
      var rest := Sorted(hand[1..]);
      InsertAt(rest, hand[0], InsertIndexOf(rest, hand[0].face))
  }

  function Rest(s: seq<Tile>, from: nat): seq<Tile> {
    if from <= |s| then s[from..] else []
  }

  /** The hands, dealt in seat order, `size` tiles each. */
  function DealHands(players: seq<PlayerId>, dealt: seq<Tile>, size: nat): (hands: map<PlayerId, seq<Tile>>)
    ensures hands.Keys == set p | p in players
  {
    if players == [] then map[]
    else DealHands(players[1..], Rest(dealt, size), size)[players[0] := Sorted(Slice(dealt, 0, size))]
  }

  /** The tiles dealt to the players, before sorting. */
  function DealtTiles(players: nat, order: seq<int>): seq<Tile>
    requires forall i | 0 <= i < |order| :: 0 <= order[i] < DECK_SIZE
  {
    Slice(NonJokers(Shuffled(order)), 0, players * HandSize(players))
  }

  /** What is left of the shuffled tiles, in order. */
  function DeckAfterDeal(players: nat, order: seq<int>): seq<Tile>
    requires forall i | 0 <= i < |order| :: 0 <= order[i] < DECK_SIZE
  {
    Without(Shuffled(order), set t | t in DealtTiles(players, order) :: t.id)
  }

  function Initial(players: seq<PlayerId>, order: seq<int>, now: int): Result<State, SetupError> {
    if |players| < MIN_PLAYERS || |players| > MAX_PLAYERS then Failure(RequiresTwoToFourPlayers)
    else if !Distinct(players) then Failure(DuplicatePlayer)
    else if |order| != DECK_SIZE || !Distinct(order) then Failure(InvalidDeckOrder)
    else if !(forall i | 0 <= i < |order| :: 0 <= order[i] < DECK_SIZE) then Failure(InvalidDeckOrder)
    else
      var deck := DeckAfterDeal(|players|, order);
      Success(State(
        1, Guessing, players, players[0],
        DealHands(players, DealtTiles(|players|, order), HandSize(|players|)),
        if deck == [] then [] else deck[1..],
        if deck == [] then None else Some(deck[0]),
        1, [], None,
        map p | p in players :: 0,
        map p | p in players :: -1,
        now + GUESS_MILLIS, None))
  }

  lemma SliceOfRest(s: seq<Tile>, a: nat, size: nat)
    ensures Slice(s, a, a + size) == Slice(Rest(s, a), 0, size)
    ensures Rest(Rest(s, a), size) == Rest(s, a + size)
  {
  }

  lemma FillOne(players: seq<PlayerId>, seat: nat, rest: seq<Tile>, size: nat, hands: map<PlayerId, seq<Tile>>)
    requires NoDuplicates(players) && seat < |players|
    ensures var hand := Sorted(Slice(rest, 0, size));
      hands[players[seat] := hand] + DealHands(players[seat + 1..], Rest(rest, size), size)
      == hands + DealHands(players[seat..], rest, size)
  {
    assert players[seat..][1..] == players[seat + 1..];
    assert players[seat] !in players[seat + 1..];
    hide Sorted, Slice, Rest, NoDuplicates;
    var p, later, hand := players[seat], DealHands(players[seat + 1..], Rest(rest, size), size), Sorted(Slice(rest, 0, size));
    assert DealHands(players[seat..], rest, size) == later[p := hand];
    assert p !in later;
    hide DealHands;
    PutCommutes(hands, later, p, hand);
  }

  lemma PutCommutes(m: map<PlayerId, seq<Tile>>, later: map<PlayerId, seq<Tile>>, p: PlayerId, h: seq<Tile>)
    requires p !in later
    ensures m[p := h] + later == m + later[p := h]
  {
  }

  /** The source's loop, which fills the hands seat by seat. */
  method FillHands(players: seq<PlayerId>, dealt: seq<Tile>, size: nat) returns (hands: map<PlayerId, seq<Tile>>)
    requires NoDuplicates(players)
    ensures hands == DealHands(players, dealt, size)
  {
    hide Sorted, Slice, Rest, DealHands, NoDuplicates;
    hands := map[];
    assert players[0..] == players && Rest(dealt, 0) == dealt by { RestZero(dealt); }
    for seat := 0 to |players|
      invariant hands + DealHands(players[seat..], Rest(dealt, seat * size), size) == DealHands(players, dealt, size)
    {
      assert (seat + 1) * size == seat * size + size;
      SliceOfRest(dealt, seat * size, size);
      FillOne(players, seat, Rest(dealt, seat * size), size, hands);
      hands := hands[players[seat] := Sorted(Slice(dealt, seat * size, (seat + 1) * size))];
    }
    assert DealHands([], Rest(dealt, |players| * size), size) == map[] by { NoHands(Rest(dealt, |players| * size), size); }
    assert players[|players|..] == [];
  }

  lemma RestZero(s: seq<Tile>)
    ensures Rest(s, 0) == s
  {
  }

  lemma NoHands(dealt: seq<Tile>, size: nat)
    ensures DealHands([], dealt, size) == map[]
  {
  }

  function ScoreOf(state: State, playerId: PlayerId): int {
    At(state.hits, playerId, 0) + |HiddenTiles(HandOf(state, playerId))|
  }

  // ---------------------------------------------------------------- turn flow

  /** The player sitting `k` seats after `seat`, going round the table. */
  function SeatAfter(order: seq<PlayerId>, seat: int, k: nat): PlayerId
    requires -1 <= seat && order != [] && k >= 1
  {
    order[(seat + k) % |order|]
  }

  /** The first survivor met going round the table from `step` seats after `seat`; `current` if there is none. */
  function SeekSurvivor(order: seq<PlayerId>, alive: seq<PlayerId>, seat: int, current: PlayerId, step: nat): PlayerId
    requires -1 <= seat && order != [] && step >= 1
    decreases |order| + 1 - step
  {
    if step > |order| then current
    else if SeatAfter(order, seat, step) in alive then SeatAfter(order, seat, step)
    else SeekSurvivor(order, alive, seat, current, step + 1)
  }

  /** The source's loop over the seats. */
  method FindNextSurvivor(order: seq<PlayerId>, alive: seq<PlayerId>, seat: int, current: PlayerId) returns (next: PlayerId)
    requires -1 <= seat && order != []
    ensures next == SeekSurvivor(order, alive, seat, current, 1)
  {
    next := current;
    var step := 1;
    while step <= |order|
      invariant 1 <= step <= |order| + 1
      invariant next == current
      invariant SeekSurvivor(order, alive, seat, current, 1) == SeekSurvivor(order, alive, seat, current, step)
    {
      var candidate := SeatAfter(order, seat, step);
      if candidate in alive {
        next := candidate;
        return;
      }
      step := step + 1;
    }
  }

  /** The eliminated players once the turn player, if wiped out, is among them. */
  function EliminatedAfterTurn(state: State): seq<PlayerId> {
    var current := state.turnPlayerId;
    if HiddenTiles(HandOf(state, current)) == [] && current !in state.eliminated
    then state.eliminated + [current]
    else state.eliminated
  }

  /** Eliminates the player whose turn ends if they are wiped out, ends the game, or passes the turn. */
  function Advance(state: State, now: int): State {
    var current := state.turnPlayerId;
    var eliminated := EliminatedAfterTurn(state);
    var alive := Survivors(state.playerOrder, eliminated);
    if |alive| <= 1 then
      state.(phase := Finished, eliminated := eliminated,
             winnerId := if alive == [] then None else Some(alive[0]), nextActionAt := 0)
    else
      state.(phase := Guessing,
             turnPlayerId := SeekSurvivor(state.playerOrder, alive, IndexOf(state.playerOrder, current), current, 1),
             eliminated := eliminated,
             deck := if state.deck == [] then [] else state.deck[1..],
             drawn := if state.deck == [] then None else Some(state.deck[0]),
             turn := state.turn + 1,
             nextActionAt := now + GUESS_MILLIS)
  }

  /** `Advance` with the source's loop over the seats in it. */
  method AdvanceTurn(state: State, now: int) returns (next: State)
    requires state.playerOrder != []
    ensures next == Advance(state, now)
  {
    var eliminated := EliminatedAfterTurn(state);
    var alive := Survivors(state.playerOrder, eliminated);
    if |alive| <= 1 {
      next := state.(phase := Finished, eliminated := eliminated,
                     winnerId := if alive == [] then None else Some(alive[0]), nextActionAt := 0);
    } else {
      var seat := IndexOf(state.playerOrder, state.turnPlayerId);
      var turnPlayerId := FindNextSurvivor(state.playerOrder, alive, seat, state.turnPlayerId);
      next := state.(phase := Guessing, turnPlayerId := turnPlayerId, eliminated := eliminated,
                     deck := if state.deck == [] then [] else state.deck[1..],
                     drawn := if state.deck == [] then None else Some(state.deck[0]),
                     turn := state.turn + 1, nextActionAt := now + GUESS_MILLIS);
    }
  }

  function Reveal(hand: seq<Tile>, id: nat): (r: seq<Tile>)
    ensures |r| == |hand|
  {
    seq(|hand|, i requires 0 <= i < |hand| => if hand[i].id == id then hand[i].(revealed := true) else hand[i])
  }

  function RevealAll(hand: seq<Tile>): (r: seq<Tile>)
    ensures |r| == |hand|
  {
    seq(|hand|, i requires 0 <= i < |hand| => hand[i].(revealed := true))
  }

  function ConcludeTurn(state: State, faceUp: bool, now: int): State {
    var playerId := state.turnPlayerId;
    var hand := HandOf(state, playerId);
    match state.drawn
    case None =>
      // The deck ran out: a wrong guess costs the player's leftmost hidden tile instead.
      if !faceUp || HiddenTiles(hand) == [] then Advance(state, now)
      else Advance(state.(hands := state.hands[playerId := Reveal(hand, HiddenTiles(hand)[0].id)]), now)
    case Some(drawn) =>
      var tile := if faceUp then drawn.(revealed := true) else drawn;
      if IsJoker(tile) then
        state.(phase := Placing, drawn := Some(tile), nextActionAt := now + PLACE_MILLIS)
      else
        Advance(state.(hands := state.hands[playerId := InsertAt(hand, tile, InsertIndexOf(hand, tile.face))],
                       drawn := None), now)
  }

  /** Puts the held joker at `index` and passes the turn; an index off the hand changes nothing. */
  function PlaceDrawn(state: State, index: int, now: int): State {
    var hand := HandOf(state, state.turnPlayerId);
    if state.drawn.None? || index < 0 || index > |hand| then state
    else
      Advance(state.(hands := state.hands[state.turnPlayerId := InsertAt(hand, state.drawn.value, index)],
                     drawn := None), now)
  }

  function TimedOut(state: State, now: int): State {
    if state.phase != Placing then ConcludeTurn(state, state.phase == Guessing, now)
    else
      var placed := PlaceDrawn(state, |HandOf(state, state.turnPlayerId)|, now);
      if placed.phase == Placing then Advance(state.(drawn := None), now) else placed
  }

  // ---------------------------------------------------------------- transitions

  function FindTile(hand: seq<Tile>, id: nat): (found: Option<Tile>)
    ensures found.Some? ==> found.value in hand && found.value.id == id
    ensures found.None? ==> forall t | t in hand :: t.id != id
  {
    if hand == [] then None
    else if hand[0].id == id then Some(hand[0])
    else FindTile(hand[1..], id)
  }

  /** The eliminated players once `target`'s hand has become `hand`. */
  function OutAfterReveal(eliminated: seq<PlayerId>, target: PlayerId, hand: seq<Tile>): seq<PlayerId> {
    if HiddenTiles(hand) == [] then eliminated + [target] else eliminated
  }

  /** The state after a correct guess, but for the phase. */
  function Hit(s: State, p: PlayerId, target: PlayerId, tileId: nat): State
    requires target in s.hands
  {
    var hand := Reveal(s.hands[target], tileId);
    s.(hands := s.hands[target := hand], eliminated := OutAfterReveal(s.eliminated, target, hand),
       hits := s.hits[p := At(s.hits, p, 0) + 1])
  }

  /** The guards of a guess, in the source's order. */
  predicate GuessAccepted(state: State, playerId: PlayerId, inputSeq: int, targetId: PlayerId, tileId: nat, number: int) {
    && state.phase == Guessing && state.turnPlayerId == playerId
    && inputSeq > At(state.lastInputSeq, playerId, -1)
    && targetId != playerId && targetId in state.playerOrder
    && targetId !in state.eliminated
    && IsGuessableNumber(number)
    && FindTile(HandOf(state, targetId), tileId).Some?
    && !FindTile(HandOf(state, targetId), tileId).value.revealed
  }

  function GuessMiss(state: State, playerId: PlayerId, inputSeq: int, targetId: PlayerId, tileId: nat, number: int, now: int): State {
    ConcludeTurn(state.(lastInputSeq := state.lastInputSeq[playerId := inputSeq]), true, now).(
      version := state.version + 1,
      lastEvent := Some(Event(GuessEvent, playerId, Some(targetId), Some(tileId), Some(number), false, now)))
  }

  function GuessHit(state: State, playerId: PlayerId, inputSeq: int, targetId: PlayerId, tileId: nat, number: int, now: int): State
    requires targetId in state.hands
  {
    var base := Hit(state, playerId, targetId, tileId).(
      version := state.version + 1,
      lastInputSeq := state.lastInputSeq[playerId := inputSeq],
      lastEvent := Some(Event(GuessEvent, playerId, Some(targetId), Some(tileId), Some(number), true, now)));
    var alive := Survivors(state.playerOrder, base.eliminated);
    if |alive| <= 1 then
      base.(phase := Finished, winnerId := Some(if alive == [] then playerId else alive[0]), nextActionAt := 0)
    else base.(phase := Deciding, nextActionAt := now + DECIDE_MILLIS)
  }

  /** Calls the number of one of another player's hidden tiles. */
  function Guess(state: State, playerId: PlayerId, inputSeq: int, targetId: PlayerId, tileId: nat, number: int, now: int): State {
    if !GuessAccepted(state, playerId, inputSeq, targetId, tileId, number) then state
    else if FindTile(HandOf(state, targetId), tileId).value.face.number != number then
      GuessMiss(state, playerId, inputSeq, targetId, tileId, number, now)
    else GuessHit(state, playerId, inputSeq, targetId, tileId, number, now)
  }

  datatype Decision = Continue | Stop

  function Decide(state: State, playerId: PlayerId, inputSeq: int, decision: Decision, now: int): State {
    if state.phase != Deciding || state.turnPlayerId != playerId then state
    else if inputSeq <= At(state.lastInputSeq, playerId, -1) then state
    else
      var seqs := state.lastInputSeq[playerId := inputSeq];
      match decision
      case Continue =>
        state.(version := state.version + 1, phase := Guessing, lastInputSeq := seqs, nextActionAt := now + GUESS_MILLIS)
      case Stop =>
        ConcludeTurn(state.(lastInputSeq := seqs), false, now).(version := state.version + 1)
  }

  function Place(state: State, playerId: PlayerId, inputSeq: int, index: int, now: int): State {
    if state.phase != Placing || state.turnPlayerId != playerId then state
    else if inputSeq <= At(state.lastInputSeq, playerId, -1) then state
    else
      var next := PlaceDrawn(state.(lastInputSeq := state.lastInputSeq[playerId := inputSeq]), index, now);
      if next.phase == Placing then state else next.(version := state.version + 1)
  }

  function Expire(state: State, now: int): State {
    if state.phase == Finished then state
    else
      TimedOut(state, now).(
        version := state.version + 1,
        lastEvent := Some(Event(TimeoutEvent, state.turnPlayerId, None, None, None, false, now)))
  }

  /** The state once `p` has shown every tile and is out. */
  function Left(s: State, p: PlayerId): State
  {
    s.(hands := s.hands[p := RevealAll(HandOf(s, p))], eliminated := s.eliminated + [p])
  }

  function Forfeit(state: State, playerId: PlayerId, now: int): State {
    if state.phase == Finished then state
    else if playerId !in state.playerOrder || playerId in state.eliminated then state
    else
      var base := Left(state, playerId).(
        version := state.version + 1,
        lastEvent := Some(Event(ForfeitEvent, playerId, None, None, None, false, now)));
      var alive := Survivors(state.playerOrder, base.eliminated);
      if |alive| <= 1 then
        base.(phase := Finished, winnerId := if alive == [] then None else Some(alive[0]), nextActionAt := 0)
      else if state.turnPlayerId != playerId then base
      else Advance(base.(drawn := None), now).(version := state.version + 1)
  }

  // ---------------------------------------------------------------- runs

  datatype Input =
    | GuessInput(playerId: PlayerId, inputSeq: int, targetId: PlayerId, tileId: nat, number: int)
    | DecideInput(playerId: PlayerId, inputSeq: int, decision: Decision)
    | PlaceInput(playerId: PlayerId, inputSeq: int, index: int)
    | ExpireInput
    | ForfeitInput(playerId: PlayerId)

  datatype TimedInput = TimedInput(input: Input, now: int)

  function Step(state: State, i: TimedInput): State {
    match i.input
    case GuessInput(p, q, target, tile, number) => Guess(state, p, q, target, tile, number, i.now)
    case DecideInput(p, q, decision) => Decide(state, p, q, decision, i.now)
    case PlaceInput(p, q, index) => Place(state, p, q, index, i.now)
    case ExpireInput => Expire(state, i.now)
    case ForfeitInput(p) => Forfeit(state, p, i.now)
  }

  function Run(state: State, inputs: seq<TimedInput>): State
    decreases |inputs|
  {
    if inputs == [] then state else Run(Step(state, inputs[0]), inputs[1..])
  }
}
