/** Da Vinci Code: the server's state, its constants, and the ordering rule of the tiles. */
module DavinciState {
  import opened Wrappers

  type PlayerId(==, !new)

  datatype Color = Black | White

  const JOKER: int := -1
  const MAX_NUMBER: int := 11
  const DECK_SIZE: nat := 26
  const MIN_PLAYERS: nat := 2
  const MAX_PLAYERS: nat := 4
  const GUESS_MILLIS: int := 30_000
  const DECIDE_MILLIS: int := 15_000
  const PLACE_MILLIS: int := 15_000

  /** What is printed on a tile. */
  datatype Face = Face(color: Color, number: int)

  /** `id` is the tile's place in the shuffled deck (the source writes it "T0".."T25"). */
  datatype Tile = Tile(id: nat, face: Face, revealed: bool)

  datatype Phase = Guessing | Deciding | Placing | Finished

  datatype EventKind = GuessEvent | TimeoutEvent | ForfeitEvent

  datatype Event = Event(
    kind: EventKind, actorId: PlayerId, targetId: Option<PlayerId>, tileId: Option<nat>,
    number: Option<int>, correct: bool, at: int)

  datatype State = State(
    version: int,
    phase: Phase,
    playerOrder: seq<PlayerId>,
    turnPlayerId: PlayerId,
    hands: map<PlayerId, seq<Tile>>,
    deck: seq<Tile>,
    drawn: Option<Tile>,
    turn: int,
    eliminated: seq<PlayerId>,
    winnerId: Option<PlayerId>,
    hits: map<PlayerId, int>,
    lastInputSeq: map<PlayerId, int>,
    nextActionAt: int,
    lastEvent: Option<Event>)

  function At(values: map<PlayerId, int>, playerId: PlayerId, fallback: int): int {
    if playerId in values then values[playerId] else fallback
  }

  function HandOf(state: State, playerId: PlayerId): seq<Tile> {
    if playerId in state.hands then state.hands[playerId] else []
  }

  /** The players not eliminated, in seat order. */
  function Survivors(playerOrder: seq<PlayerId>, eliminated: seq<PlayerId>): (alive: seq<PlayerId>)
    ensures forall p :: p in alive <==> p in playerOrder && p !in eliminated
  {
    if playerOrder == [] then []
    else
      (if playerOrder[0] in eliminated then [] else [playerOrder[0]])
      + Survivors(playerOrder[1..], eliminated)
  }

  function IndexOf(order: seq<PlayerId>, p: PlayerId): (i: int)
    ensures -1 <= i < |order|
    ensures i == -1 <==> p !in order
    ensures i != -1 ==> order[i] == p && p !in order[..i]
  {
    if order == [] then -1
    else if order[0] == p then 0
    else
      var rest := IndexOf(order[1..], p);
      if rest == -1 then -1 else rest + 1
  }

  // ---------------------------------------------------------------- tiles

  /** Ascending by number, black before white. Jokers never reach this comparison in the insertion rule. */
  function CompareTiles(left: Face, right: Face): int {
    if left.number != right.number then left.number - right.number
    else if left.color == right.color then 0
    else if left.color == Black then -1
    else 1
  }

  predicate IsJoker(tile: Tile) {
    tile.face.number == JOKER
  }

  predicate IsGuessableNumber(value: int) {
    value == JOKER || 0 <= value <= MAX_NUMBER
  }

  function HiddenTiles(hand: seq<Tile>): seq<Tile> {
    if hand == [] then []
    else (if hand[0].revealed then [] else [hand[0]]) + HiddenTiles(hand[1..])
  }

  function InsertAt(hand: seq<Tile>, tile: Tile, index: nat): seq<Tile>
    requires index <= |hand|
  {
    hand[..index] + [tile] + hand[index..]
  }

  /** One past the last numbered tile that does not come after `face`; 0 when there is none. */
  function InsertIndexOf(hand: seq<Tile>, face: Face): (index: nat)
    ensures index <= |hand|
  {
    if hand == [] then 0
    else if !IsJoker(hand[|hand| - 1]) && CompareTiles(hand[|hand| - 1].face, face) <= 0 then |hand|
    else InsertIndexOf(hand[..|hand| - 1], face)
  }

  /** The source's left-to-right scan, which computes the same slot. */
  method FindInsertIndex(hand: seq<Tile>, face: Face) returns (index: nat)
    ensures index == InsertIndexOf(hand, face)
  {
    index := 0;
    assert hand[..0] == [];
    for position := 0 to |hand|
      invariant index == InsertIndexOf(hand[..position], face)
    {
      assert hand[..position + 1][..position] == hand[..position];
      if !IsJoker(hand[position]) && CompareTiles(hand[position].face, face) <= 0 {
        index := position + 1;
      }
    }
    assert hand[..|hand|] == hand;
  }

  /** `a` may stand left of `b`: strictly smaller, or one of them is a joker. */
  predicate Before(a: Tile, b: Tile) {
    IsJoker(a) || IsJoker(b) || CompareTiles(a.face, b.face) < 0
  }

  /** The public clue: jokers aside, a hand is strictly ascending. */
  ghost predicate Ordered(hand: seq<Tile>) {
    forall i, j | 0 <= i < j < |hand| :: Before(hand[i], hand[j])
  }

  lemma BeforeTrans(a: Tile, b: Tile, c: Face)
    requires Before(a, b) && !IsJoker(b) && !IsJoker(a) && CompareTiles(b.face, c) <= 0
    ensures CompareTiles(a.face, c) < 0
  {
  }

  /** Left of the insertion slot nothing comes after `face`; right of it nothing comes before. */
  lemma {:induction false} InsertIndexSplits(hand: seq<Tile>, face: Face)
    requires Ordered(hand)
    ensures var k := InsertIndexOf(hand, face);
      && (forall i | 0 <= i < k :: IsJoker(hand[i]) || CompareTiles(hand[i].face, face) <= 0)
      && (forall i | k <= i < |hand| :: IsJoker(hand[i]) || CompareTiles(hand[i].face, face) > 0)
  {
    if hand == [] {
    } else if IsJoker(hand[|hand| - 1]) || CompareTiles(hand[|hand| - 1].face, face) > 0 {
      var rest := hand[..|hand| - 1];
      InsertIndexSplits(rest, face);
      assert forall i | 0 <= i < |rest| :: rest[i] == hand[i];
    } else {
      var last := hand[|hand| - 1];
      forall i | 0 <= i < |hand| ensures IsJoker(hand[i]) || CompareTiles(hand[i].face, face) <= 0 {
        if i < |hand| - 1 && !IsJoker(hand[i]) {
          assert Before(hand[i], last);
          BeforeTrans(hand[i], last, face);
        }
      }
    }
  }

  lemma SplitOrdered(left: seq<Tile>, tile: Tile, right: seq<Tile>)
    requires Ordered(left + right)
    requires forall t | t in left :: Before(t, tile)
    requires forall t | t in right :: Before(tile, t)
    ensures Ordered(left + [tile] + right)
  {
    var placed, hand := left + [tile] + right, left + right;
    forall i, j | 0 <= i < j < |placed| ensures Before(placed[i], placed[j]) {
      if i != |left| && j != |left| {
        assert placed[i] == hand[if i < |left| then i else i - 1];
        assert placed[j] == hand[if j < |left| then j else j - 1];
      }
    }
  }

  /** The insertion rule keeps a hand ordered, jokers anywhere, when the new numbered face is not yet in it. */
  lemma InsertKeepsOrder(hand: seq<Tile>, tile: Tile)
    requires Ordered(hand) && !IsJoker(tile)
    requires forall t | t in hand :: t.face != tile.face
    ensures Ordered(InsertAt(hand, tile, InsertIndexOf(hand, tile.face)))
  {
    var k := InsertIndexOf(hand, tile.face);
    InsertIndexSplits(hand, tile.face);
    assert hand[..k] + hand[k..] == hand;
    SplitOrdered(hand[..k], tile, hand[k..]);
  }

  lemma InsertIndexAfterNumber(hand: seq<Tile>, face: Face)
    ensures var k := InsertIndexOf(hand, face);
      k > 0 ==> !IsJoker(hand[k - 1]) && CompareTiles(hand[k - 1].face, face) <= 0
  {
  }

  /** And no slot further left does: the insertion slot is the leftmost that keeps the hand ordered. */
  lemma InsertIndexIsLeftmost(hand: seq<Tile>, tile: Tile, slot: nat)
    requires !IsJoker(tile) && slot < InsertIndexOf(hand, tile.face)
    requires forall t | t in hand :: t.face != tile.face
    ensures !Ordered(InsertAt(hand, tile, slot))
  {
    // hand[k - 1] would stand right of `tile` although it does not come after it.
    var k := InsertIndexOf(hand, tile.face);
    InsertIndexAfterNumber(hand, tile.face);
    var early := InsertAt(hand, tile, slot);
    assert early[slot] == tile && early[k] == hand[k - 1];
    assert hand[k - 1].face != tile.face;
    assert !Before(early[slot], early[k]);
  }

  lemma InsertJokerKeepsOrder(hand: seq<Tile>, tile: Tile, slot: nat)
    requires Ordered(hand) && IsJoker(tile) && slot <= |hand|
    ensures Ordered(InsertAt(hand, tile, slot))
  {
    assert hand[..slot] + hand[slot..] == hand;
    SplitOrdered(hand[..slot], tile, hand[slot..]);
  }
}
