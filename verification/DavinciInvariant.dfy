/** Da Vinci Code: what every reachable state satisfies, and the measure every accepted input lowers. */
module DavinciInvariant {
  import opened Wrappers
  import opened DavinciState
  import opened DavinciRules

  // ---------------------------------------------------------------- tiles on the table

  /** All hands in seat order, as one row of tiles. */
  ghost function Row(order: seq<PlayerId>, hands: map<PlayerId, seq<Tile>>): seq<Tile>
    requires forall p | p in order :: p in hands
  {
    if order == [] then [] else hands[order[0]] + Row(order[1..], hands)
  }

  ghost function Held(drawn: Option<Tile>): seq<Tile> {
    if drawn.Some? then [drawn.value] else []
  }

  ghost function InHands(s: State): seq<Tile>
    requires Seated(s)
  {
    Row(s.playerOrder, s.hands)
  }

  ghost function AllTiles(s: State): seq<Tile>
    requires Seated(s)
  {
    InHands(s) + Held(s.drawn) + s.deck
  }

  ghost function Ids(tiles: seq<Tile>): (ids: seq<nat>)
    ensures |ids| == |tiles|
  {
    seq(|tiles|, i requires 0 <= i < |tiles| => tiles[i].id)
  }

  ghost function HiddenCount(tiles: seq<Tile>): nat {
    |HiddenTiles(tiles)|
  }

  ghost function SumHits(order: seq<PlayerId>, hits: map<PlayerId, int>): int {
    if order == [] then 0 else At(hits, order[0], 0) + SumHits(order[1..], hits)
  }

  // ---------------------------------------------------------------- the invariant

  ghost predicate Seated(s: State) {
    && |s.playerOrder| >= 2
    && NoDuplicates(s.playerOrder)
    && s.turnPlayerId in s.playerOrder
    && (forall p :: p in s.hands <==> p in s.playerOrder)
  }

  /** Tiles are the dealt ones: each carries the face its id was given, and no id is there twice. */
  ghost predicate Genuine(order: seq<int>, tiles: seq<Tile>) {
    && IsPermutation(order)
    && (forall t | t in tiles :: t.id < DECK_SIZE && t.face == StandardFace(order[t.id]))
    && (forall id :: multiset(Ids(tiles))[id] <= 1)
  }

  ghost predicate IsPermutation(order: seq<int>) {
    && |order| == DECK_SIZE
    && NoDuplicates(order)
    && (forall i | 0 <= i < DECK_SIZE :: 0 <= order[i] < DECK_SIZE)
  }

  ghost predicate WipedOut(s: State, p: PlayerId)
    requires p in s.hands
  {
    HiddenCount(s.hands[p]) == 0
  }

  /** The part of the invariant that also holds between the two halves of a transition. */
  ghost predicate Table(order: seq<int>, s: State) {
    && Seated(s)
    && Genuine(order, AllTiles(s))
    && (forall p | p in s.playerOrder :: Ordered(s.hands[p]))
    && (forall t | t in s.deck :: !t.revealed)
    && NoDuplicates(s.eliminated)
    && (forall p | p in s.eliminated :: p in s.playerOrder)
    && SumHits(s.playerOrder, s.hits) + HiddenCount(InHands(s)) <= |InHands(s)|
  }

  /** Eliminated means: no hidden tile left. */
  ghost predicate EliminatedIffWipedOut(players: seq<PlayerId>, hands: map<PlayerId, seq<Tile>>, eliminated: seq<PlayerId>)
    requires forall p | p in players :: p in hands
  {
    forall p | p in players :: p in eliminated <==> HiddenCount(hands[p]) == 0
  }

  /** FINISHED means exactly one survivor, the winner; before that at least two are left and the turn is one's. */
  ghost predicate TurnOk(phase: Phase, alive: seq<PlayerId>, turnPlayerId: PlayerId, winnerId: Option<PlayerId>) {
    if phase == Finished then winnerId.Some? && alive == [winnerId.value]
    else |alive| >= 2 && turnPlayerId in alive && winnerId.None?
  }

  /** A turn holds a hidden tile to settle, or in PLACING a joker, unless the deck has run out. */
  ghost predicate DrawOk(phase: Phase, drawn: Option<Tile>, deck: seq<Tile>) {
    match phase
    case Finished => true
    case Placing => drawn.Some? && IsJoker(drawn.value)
    case _ => if drawn.Some? then !drawn.value.revealed else deck == []
  }

  ghost predicate Inv(order: seq<int>, s: State) {
    && Table(order, s)
    && |AllTiles(s)| + |s.eliminated| >= DECK_SIZE
    && EliminatedIffWipedOut(s.playerOrder, s.hands, s.eliminated)
    && TurnOk(s.phase, Survivors(s.playerOrder, s.eliminated), s.turnPlayerId, s.winnerId)
    && DrawOk(s.phase, s.drawn, s.deck)
  }

  // ---------------------------------------------------------------- the measure

  ghost function Rank(phase: Phase): nat {
    match phase
    case Deciding => 2
    case Guessing => 1
    case _ => 0
  }

  /** 2·(unrevealed tiles) + 2·(tiles not yet in a hand) + rank of the phase. */
  ghost function Measure(s: State): nat
    requires Seated(s)
  {
    2 * HiddenCount(AllTiles(s)) + 2 * (|Held(s.drawn)| + |s.deck|) + Rank(s.phase)
  }

  // ---------------------------------------------------------------- rows

  lemma HiddenConcat(a: seq<Tile>, b: seq<Tile>)
    ensures HiddenTiles(a + b) == HiddenTiles(a) + HiddenTiles(b)
  {
    if a == [] {
      assert a + b == b;
    } else {
      assert (a + b)[1..] == a[1..] + b;
      HiddenConcat(a[1..], b);
    }
  }

  lemma HiddenAll(tiles: seq<Tile>)
    requires forall t | t in tiles :: !t.revealed
    ensures HiddenTiles(tiles) == tiles
  {
    if tiles != [] { HiddenAll(tiles[1..]); }
  }

  lemma HiddenMember(tiles: seq<Tile>, t: Tile)
    ensures t in HiddenTiles(tiles) <==> t in tiles && !t.revealed
  {
    if tiles != [] { HiddenMember(tiles[1..], t); }
  }

  lemma HiddenAtMost(tiles: seq<Tile>)
    ensures HiddenCount(tiles) <= |tiles|
  {
    if tiles != [] { HiddenAtMost(tiles[1..]); }
  }

  lemma IdsConcat(a: seq<Tile>, b: seq<Tile>)
    ensures Ids(a + b) == Ids(a) + Ids(b)
  {
  }

  lemma RowFrame(order: seq<PlayerId>, hands: map<PlayerId, seq<Tile>>, p: PlayerId, h: seq<Tile>)
    requires forall q | q in order :: q in hands
    requires p !in order
    ensures Row(order, hands[p := h]) == Row(order, hands)
  {
    if order != [] { RowFrame(order[1..], hands, p, h); }
  }

  /** Changing one hand changes one stretch of the row. */
  lemma RowUpdate(order: seq<PlayerId>, hands: map<PlayerId, seq<Tile>>, p: PlayerId, h: seq<Tile>)
    returns (before: seq<Tile>, after: seq<Tile>)
    requires NoDuplicates(order) && p in order
    requires forall q | q in order :: q in hands
    ensures Row(order, hands) == before + hands[p] + after
    ensures Row(order, hands[p := h]) == before + h + after
  {
    if order[0] == p {
      before, after := [], Row(order[1..], hands);
      RowFrame(order[1..], hands, p, h);
    } else {
      before, after := RowUpdate(order[1..], hands, p, h);
      before := hands[order[0]] + before;
    }
  }

  lemma SumHitsFrame(order: seq<PlayerId>, hits: map<PlayerId, int>, p: PlayerId, v: int)
    requires p !in order
    ensures SumHits(order, hits[p := v]) == SumHits(order, hits)
  {
    if order != [] { SumHitsFrame(order[1..], hits, p, v); }
  }

  lemma SumHitsUpdate(order: seq<PlayerId>, hits: map<PlayerId, int>, p: PlayerId, v: int)
    requires NoDuplicates(order) && p in order
    ensures SumHits(order, hits[p := v]) == SumHits(order, hits) - At(hits, p, 0) + v
  {
    if order[0] == p {
      SumHitsFrame(order[1..], hits, p, v);
    } else {
      SumHitsUpdate(order[1..], hits, p, v);
    }
  }

  // ---------------------------------------------------------------- hands

  lemma TileInRow(order: seq<PlayerId>, hands: map<PlayerId, seq<Tile>>, p: PlayerId, t: Tile)
    requires forall q | q in order :: q in hands
    requires p in order && t in hands[p]
    ensures t in Row(order, hands)
  {
    if order[0] != p { TileInRow(order[1..], hands, p, t); }
  }

  /** Two tiles at different places have different ids, hence different faces. */
  lemma GenuineDistinct(order: seq<int>, tiles: seq<Tile>, i: nat, j: nat)
    requires Genuine(order, tiles) && i < j < |tiles|
    ensures tiles[i].id != tiles[j].id && tiles[i].face != tiles[j].face
  {
    var ids := Ids(tiles);
    assert ids == ids[..j] + [ids[j]] + ids[j + 1..];
    assert multiset(ids)[ids[j]] >= multiset(ids[..j])[ids[j]] + 1;
    assert ids[i] == ids[..j][i];
    assert order[tiles[i].id] != order[tiles[j].id];
    StandardFacesDiffer(order[tiles[i].id], order[tiles[j].id]);
  }

  lemma StandardFacesDiffer(i: nat, j: nat)
    requires i < DECK_SIZE && j < DECK_SIZE && i != j
    ensures StandardFace(i) != StandardFace(j)
  {
  }

  lemma GenuinePart(order: seq<int>, a: seq<Tile>, b: seq<Tile>, c: seq<Tile>)
    requires Genuine(order, a + b + c)
    ensures Genuine(order, b)
  {
    IdsConcat(a + b, c);
    IdsConcat(a, b);
    assert forall t | t in b :: t in a + b + c;
    forall id ensures multiset(Ids(b))[id] <= 1 {
      assert multiset(Ids(a + b + c))[id] == multiset(Ids(a))[id] + multiset(Ids(b))[id] + multiset(Ids(c))[id];
    }
  }

  /** Same tiles in the same places; only which are face up may differ. */
  ghost predicate SameTiles(a: seq<Tile>, b: seq<Tile>) {
    |a| == |b| && forall i | 0 <= i < |a| :: a[i].id == b[i].id && a[i].face == b[i].face
  }

  lemma SameTilesKeep(order: seq<int>, a: seq<Tile>, b: seq<Tile>)
    requires SameTiles(a, b)
    ensures Ids(a) == Ids(b)
    ensures Ordered(a) ==> Ordered(b)
    ensures Genuine(order, a) ==> Genuine(order, b)
  {
    assert Ids(a) == Ids(b);
  }

  lemma RevealSplits(hand: seq<Tile>, k: nat)
    requires k < |hand|
    requires forall i | 0 <= i < |hand| && i != k :: hand[i].id != hand[k].id
    ensures Reveal(hand, hand[k].id) == hand[..k] + [hand[k].(revealed := true)] + hand[k + 1..]
  {
  }

  /** The hidden tiles of a hand, counted around one place. */
  lemma HiddenAround(a: seq<Tile>, t: Tile, b: seq<Tile>)
    ensures HiddenCount(a + [t] + b) == HiddenCount(a) + HiddenCount(b) + if t.revealed then 0 else 1
  {
    HiddenConcat(a + [t], b);
    HiddenConcat(a, [t]);
  }

  lemma OtherIdsDiffer(order: seq<int>, hand: seq<Tile>, k: nat)
    requires Genuine(order, hand) && k < |hand|
    ensures forall i | 0 <= i < |hand| && i != k :: hand[i].id != hand[k].id
  {
    hide Genuine;
    forall i | 0 <= i < |hand| && i != k ensures hand[i].id != hand[k].id {
      if i < k { GenuineDistinct(order, hand, i, k); } else { GenuineDistinct(order, hand, k, i); }
    }
  }

  lemma RevealKeepsPlaces(hand: seq<Tile>, id: nat)
    ensures SameTiles(hand, Reveal(hand, id))
  {
  }

  /** Turning one hidden tile face up lowers the hidden count by exactly one and moves nothing. */
  lemma RevealOne(order: seq<int>, hand: seq<Tile>, t: Tile)
    requires Genuine(order, hand) && t in hand && !t.revealed
    ensures HiddenCount(Reveal(hand, t.id)) == HiddenCount(hand) - 1
    ensures SameTiles(hand, Reveal(hand, t.id))
  {
    hide Genuine, HiddenCount, SameTiles, Reveal;
    var k :| 0 <= k < |hand| && hand[k] == t;
    var a, b := hand[..k], hand[k + 1..];
    OtherIdsDiffer(order, hand, k);
    RevealSplits(hand, k);
    RevealKeepsPlaces(hand, t.id);
    assert hand == a + [t] + b;
    HiddenAround(a, t, b);
    HiddenAround(a, t.(revealed := true), b);
  }

  lemma RevealEvery(hand: seq<Tile>)
    ensures HiddenTiles(RevealAll(hand)) == []
    ensures SameTiles(hand, RevealAll(hand))
  {
    var open := RevealAll(hand);
    if |HiddenTiles(open)| > 0 {
      HiddenMember(open, HiddenTiles(open)[0]);
    }
  }
}
