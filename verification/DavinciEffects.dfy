/** Da Vinci Code: what may happen to a tile once it stands in a hand. */
module DavinciEffects {
  import opened Wrappers
  import opened DavinciState
  import opened DavinciRules

  function Opened(t: Tile): Tile {
    t.(revealed := true)
  }

  /** The number was called right: the one way another player opens a tile. */
  predicate CalledRight(s: State, i: Input, p: PlayerId, t: Tile) {
    && i.GuessInput? && i.targetId == p && i.tileId == t.id
    && GuessAccepted(s, i.playerId, i.inputSeq, p, t.id, i.number)
    && FindTile(HandOf(s, p), t.id).value.face.number == i.number
  }

  /** With the deck gone, a failed turn opens the player's leftmost hidden tile. */
  predicate PaidForFailure(s: State, i: Input, p: PlayerId, t: Tile) {
    && (i.GuessInput? || i.ExpireInput?)
    && s.phase == Guessing && s.turnPlayerId == p && s.drawn.None?
    && HiddenTiles(HandOf(s, p)) != [] && HiddenTiles(HandOf(s, p))[0].id == t.id
    && (i.GuessInput? ==>
          && GuessAccepted(s, p, i.inputSeq, i.targetId, i.tileId, i.number)
          && FindTile(HandOf(s, i.targetId), i.tileId).value.face.number != i.number)
  }

  predicate MayOpen(s: State, i: Input, p: PlayerId, t: Tile) {
    || CalledRight(s, i, p, t)
    || PaidForFailure(s, i, p, t)
    || (i.ForfeitInput? && i.playerId == p)
  }

  lemma InsertKeeps(hand: seq<Tile>, tile: Tile, k: nat, t: Tile)
    requires t in hand && k <= |hand|
    ensures t in InsertAt(hand, tile, k)
  {
    assert hand == hand[..k] + hand[k..];
  }

  lemma RevealKeeps(hand: seq<Tile>, id: nat, t: Tile)
    requires t in hand
    ensures if t.id == id then Opened(t) in Reveal(hand, id) else t in Reveal(hand, id)
  {
    var j :| 0 <= j < |hand| && hand[j] == t;
    assert Reveal(hand, id)[j] == if t.id == id then Opened(t) else t;
  }

  lemma RevealAllKeeps(hand: seq<Tile>, t: Tile)
    requires t in hand
    ensures Opened(t) in RevealAll(hand)
  {
    var j :| 0 <= j < |hand| && hand[j] == t;
    assert RevealAll(hand)[j] == Opened(t);
  }

  lemma AdvanceKeepsHands(s: State, now: int)
    ensures Advance(s, now).hands == s.hands
  {
    hide Survivors, SeekSurvivor, EliminatedAfterTurn;
  }

  lemma ConcludeKeeps(s: State, faceUp: bool, now: int, p: PlayerId, t: Tile)
    requires p in s.hands && t in s.hands[p]
    ensures p in ConcludeTurn(s, faceUp, now).hands
    ensures var hand := ConcludeTurn(s, faceUp, now).hands[p];
      || t in hand
      || (Opened(t) in hand && faceUp && p == s.turnPlayerId && s.drawn.None?
          && HiddenTiles(HandOf(s, p)) != [] && HiddenTiles(HandOf(s, p))[0].id == t.id)
  {
    var hand := HandOf(s, s.turnPlayerId);
    forall q: State ensures Advance(q, now).hands == q.hands { AdvanceKeepsHands(q, now); }
    hide Advance, Reveal, InsertAt, HiddenTiles, InsertIndexOf;
    if p == s.turnPlayerId {
      if s.drawn.Some? {
        var tile := if faceUp then Opened(s.drawn.value) else s.drawn.value;
        InsertKeeps(hand, tile, InsertIndexOf(hand, tile.face), t);
      } else if faceUp && HiddenTiles(hand) != [] {
        RevealKeeps(hand, HiddenTiles(hand)[0].id, t);
      }
    }
  }

  lemma PlaceKeeps(s: State, index: int, now: int, p: PlayerId, t: Tile)
    requires p in s.hands && t in s.hands[p]
    ensures p in PlaceDrawn(s, index, now).hands && t in PlaceDrawn(s, index, now).hands[p]
  {
    var hand := HandOf(s, s.turnPlayerId);
    forall q: State ensures Advance(q, now).hands == q.hands { AdvanceKeepsHands(q, now); }
    hide Advance, InsertAt;
    if s.drawn.Some? && 0 <= index <= |hand| && p == s.turnPlayerId {
      InsertKeeps(hand, s.drawn.value, index, t);
    }
  }

  ghost predicate KeptOrOpened(s: State, i: Input, p: PlayerId, t: Tile, s': State) {
    p in s'.hands && (t in s'.hands[p] || (Opened(t) in s'.hands[p] && MayOpen(s, i, p, t)))
  }

  lemma GuessKeeps(s: State, i: Input, now: int, p: PlayerId, t: Tile)
    requires i.GuessInput? && p in s.hands && t in s.hands[p]
    ensures KeptOrOpened(s, i, p, t, Guess(s, i.playerId, i.inputSeq, i.targetId, i.tileId, i.number, now))
  {
    hide ConcludeTurn, Reveal, HiddenTiles, IsGuessableNumber, OutAfterReveal, Survivors;
    if GuessAccepted(s, i.playerId, i.inputSeq, i.targetId, i.tileId, i.number) {
      if FindTile(HandOf(s, i.targetId), i.tileId).value.face.number != i.number {
        ConcludeKeeps(s.(lastInputSeq := s.lastInputSeq[i.playerId := i.inputSeq]), true, now, p, t);
      } else if p == i.targetId {
        RevealKeeps(s.hands[p], i.tileId, t);
      }
    }
  }

  lemma ExpireKeeps(s: State, now: int, p: PlayerId, t: Tile)
    requires p in s.hands && t in s.hands[p]
    ensures KeptOrOpened(s, ExpireInput, p, t, Expire(s, now))
  {
    hide ConcludeTurn, PlaceDrawn, HiddenTiles, Advance;
    if s.phase == Placing {
      PlaceKeeps(s, |HandOf(s, s.turnPlayerId)|, now, p, t);
      AdvanceKeepsHands(s.(drawn := None), now);
    } else if s.phase != Finished {
      ConcludeKeeps(s, s.phase == Guessing, now, p, t);
    }
  }

  lemma ForfeitKeeps(s: State, q: PlayerId, now: int, p: PlayerId, t: Tile)
    requires p in s.hands && t in s.hands[p]
    ensures KeptOrOpened(s, ForfeitInput(q), p, t, Forfeit(s, q, now))
  {
    hide Advance, RevealAll, Survivors;
    forall r: State ensures Advance(r, now).hands == r.hands { AdvanceKeepsHands(r, now); }
    RevealAllKeeps(s.hands[p], t);
  }

  /**
   * A tile in a hand stays in that hand with its face, whatever anyone sends. It
   * stays hidden too, unless its number is called right, its owner fails a turn
   * with the deck gone and it is the leftmost hidden one, or its owner forfeits.
   */
  lemma StepKeepsOrOpens(s: State, i: TimedInput, p: PlayerId, t: Tile)
    requires p in s.hands && t in s.hands[p]
    ensures KeptOrOpened(s, i.input, p, t, Step(s, i))
  {
    hide ConcludeTurn, PlaceDrawn, Guess, Expire, Forfeit, MayOpen;
    match i.input
    case GuessInput(_, _, _, _, _) => GuessKeeps(s, i.input, i.now, p, t);
    case DecideInput(q, n, decision) =>
      if decision == Stop {
        ConcludeKeeps(s.(lastInputSeq := s.lastInputSeq[q := n]), false, i.now, p, t);
      }
    case PlaceInput(q, n, index) => PlaceKeeps(s.(lastInputSeq := s.lastInputSeq[q := n]), index, i.now, p, t);
    case ExpireInput => ExpireKeeps(s, i.now, p, t);
    case ForfeitInput(q) => ForfeitKeeps(s, q, i.now, p, t);
  }

  /** Over any run a tile never leaves its hand, changes its face, or is covered again. */
  lemma {:induction false} RunKeepsTiles(s: State, inputs: seq<TimedInput>, p: PlayerId, t: Tile)
    requires p in s.hands && t in s.hands[p]
    ensures var s' := Run(s, inputs);
      p in s'.hands && (t in s'.hands[p] || Opened(t) in s'.hands[p])
    decreases |inputs|
  {
    hide Step, MayOpen;
    if inputs != [] {
      StepKeepsOrOpens(s, inputs[0], p, t);
      var next := Step(s, inputs[0]);
      RunKeepsTiles(next, inputs[1..], p, if t in next.hands[p] then t else Opened(t));
    }
  }

  /** A correct call opens the called tile, is credited once, and lets the caller go on unless the game is over. */
  lemma RightCallIsCredited(s: State, i: Input, now: int, t: Tile)
    requires i.GuessInput? && FindTile(HandOf(s, i.targetId), i.tileId) == Some(t) && CalledRight(s, i, i.targetId, t)
    ensures var s' := Guess(s, i.playerId, i.inputSeq, i.targetId, i.tileId, i.number, now);
      && i.targetId in s'.hands && Opened(t) in s'.hands[i.targetId]
      && At(s'.hits, i.playerId, 0) == At(s.hits, i.playerId, 0) + 1
      && s'.turnPlayerId == i.playerId && s'.drawn == s.drawn && s'.deck == s.deck
      && (s'.phase == Deciding || s'.phase == Finished)
  {
    hide Reveal, HiddenTiles, IsGuessableNumber, OutAfterReveal, Survivors;
    assert i.targetId in s.hands;
    RevealKeeps(s.hands[i.targetId], i.tileId, t);
  }
}
