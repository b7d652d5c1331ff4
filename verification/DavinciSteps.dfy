/** Da Vinci Code: every accepted input keeps the invariant and lowers the measure. */
module DavinciSteps {
  import opened Wrappers
  import opened DavinciState
  import opened DavinciRules
  import opened DavinciInvariant

  // ---------------------------------------------------------------- pieces of a transition

  lemma HiddenAllTiles(s: State)
    requires Seated(s)
    ensures HiddenCount(AllTiles(s)) == HiddenCount(InHands(s)) + HiddenCount(Held(s.drawn)) + HiddenCount(s.deck)
    ensures multiset(Ids(AllTiles(s))) == multiset(Ids(InHands(s))) + multiset(Ids(Held(s.drawn))) + multiset(Ids(s.deck))
  {
    HiddenConcat(InHands(s) + Held(s.drawn), s.deck);
    HiddenConcat(InHands(s), Held(s.drawn));
    IdsConcat(InHands(s) + Held(s.drawn), s.deck);
    IdsConcat(InHands(s), Held(s.drawn));
  }

  /** Turning tiles face up in one stretch of a row of tiles. */
  lemma FlipStretch(order: seq<int>, a: seq<Tile>, x: seq<Tile>, y: seq<Tile>, b: seq<Tile>)
    requires SameTiles(x, y) && Genuine(order, a + x + b)
    ensures Genuine(order, a + y + b) && Ids(a + y + b) == Ids(a + x + b)
    ensures HiddenCount(a + y + b) == HiddenCount(a + x + b) - HiddenCount(x) + HiddenCount(y)
  {
    assert SameTiles(a + x + b, a + y + b);
    SameTilesKeep(order, a + x + b, a + y + b);
    RowCounts(a, x, b);
    RowCounts(a, y, b);
  }

  /** A hand that keeps its tiles but turns some face up. */
  lemma ChangeHand(order: seq<int>, s: State, p: PlayerId, h: seq<Tile>)
    requires Table(order, s) && p in s.playerOrder
    requires SameTiles(s.hands[p], h) && HiddenCount(h) <= HiddenCount(s.hands[p])
    ensures var s' := s.(hands := s.hands[p := h]);
      && Table(order, s')
      && Ids(AllTiles(s')) == Ids(AllTiles(s))
      && HiddenCount(AllTiles(s')) == HiddenCount(AllTiles(s)) - HiddenCount(s.hands[p]) + HiddenCount(h)
      && HiddenCount(InHands(s')) == HiddenCount(InHands(s)) - HiddenCount(s.hands[p]) + HiddenCount(h)
      && |InHands(s')| == |InHands(s)|
  {
    var s' := s.(hands := s.hands[p := h]);
    var before, after := RowUpdate(s.playerOrder, s.hands, p, h);
    var rest := after + Held(s.drawn) + s.deck;
    RowCounts(before, s.hands[p], after);
    RowCounts(before, h, after);
    assert AllTiles(s) == before + s.hands[p] + rest;
    assert AllTiles(s') == before + h + rest;
    FlipStretch(order, before, s.hands[p], h, rest);
    SameTilesKeep(order, s.hands[p], h);
  }

  lemma FlipDrawn(order: seq<int>, s: State)
    requires Table(order, s) && s.drawn.Some? && !s.drawn.value.revealed
    ensures var s' := s.(drawn := Some(s.drawn.value.(revealed := true)));
      && Table(order, s')
      && Ids(AllTiles(s')) == Ids(AllTiles(s))
      && HiddenCount(AllTiles(s')) == HiddenCount(AllTiles(s)) - 1
  {
    var up := s.drawn.value.(revealed := true);
    assert AllTiles(s.(drawn := Some(up))) == InHands(s) + [up] + s.deck;
    FlipStretch(order, InHands(s), Held(s.drawn), [up], s.deck);
    assert HiddenTiles([up]) == [] && HiddenTiles(Held(s.drawn)) == [s.drawn.value];
  }

  lemma HandGenuine(order: seq<int>, s: State, p: PlayerId)
    requires Table(order, s) && p in s.playerOrder
    ensures Genuine(order, s.hands[p])
  {
    var before, after := RowUpdate(s.playerOrder, s.hands, p, s.hands[p]);
    assert AllTiles(s) == before + s.hands[p] + (after + Held(s.drawn) + s.deck);
    GenuinePart(order, before, s.hands[p], after + Held(s.drawn) + s.deck);
  }

  /** The held tile's face is in nobody's hand. */
  lemma DrawnIsNew(order: seq<int>, s: State, p: PlayerId)
    requires Table(order, s) && s.drawn.Some? && p in s.playerOrder
    ensures forall t | t in s.hands[p] :: t.face != s.drawn.value.face
  {
    forall t | t in s.hands[p] ensures t.face != s.drawn.value.face {
      TileInRow(s.playerOrder, s.hands, p, t);
      var i :| 0 <= i < |InHands(s)| && InHands(s)[i] == t;
      assert AllTiles(s)[i] == t && AllTiles(s)[|InHands(s)|] == s.drawn.value;
      GenuineDistinct(order, AllTiles(s), i, |InHands(s)|);
    }
  }

  lemma InsertCounts(hand: seq<Tile>, t: Tile, k: nat)
    requires k <= |hand|
    ensures HiddenCount(InsertAt(hand, t, k)) == HiddenCount(hand) + HiddenCount([t])
    ensures multiset(Ids(InsertAt(hand, t, k))) == multiset(Ids(hand)) + multiset(Ids([t]))
    ensures forall u | u in InsertAt(hand, t, k) :: u == t || u in hand
  {
    RowCounts(hand[..k], [t], hand[k..]);
    RowCounts(hand[..k], hand[k..], []);
    assert hand[..k] + hand[k..] + [] == hand;
  }

  /** Moving a tile from right of a hand into it keeps the tiles, their ids and how many are hidden. */
  lemma MoveIn(order: seq<int>, a: seq<Tile>, hand: seq<Tile>, t: Tile, k: nat, b: seq<Tile>, c: seq<Tile>)
    requires k <= |hand| && Genuine(order, a + hand + (b + [t] + c))
    ensures var y := a + InsertAt(hand, t, k) + (b + c);
      && Genuine(order, y)
      && multiset(Ids(y)) == multiset(Ids(a + hand + (b + [t] + c)))
      && HiddenCount(y) == HiddenCount(a + hand + (b + [t] + c))
  {
    var h := InsertAt(hand, t, k);
    var x, y := a + hand + (b + [t] + c), a + h + (b + c);
    InsertCounts(hand, t, k);
    assert forall u | u in y :: u in x;
    hide InsertAt;
    RowCounts(a, hand, b + [t] + c);
    RowCounts(b, [t], c);
    RowCounts(a, h, b + c);
    HiddenConcat(b, c);
    IdsConcat(b, c);
    assert multiset(Ids(y)) == multiset(Ids(x));
  }

  /** Moving the held tile into the turn player's hand loses nothing. */
  lemma DrawnToHand(order: seq<int>, s: State, k: nat)
    requires Table(order, s) && s.drawn.Some?
    requires k <= |s.hands[s.turnPlayerId]|
    requires Ordered(InsertAt(s.hands[s.turnPlayerId], s.drawn.value, k))
    ensures var p := s.turnPlayerId;
      var s' := s.(hands := s.hands[p := InsertAt(s.hands[p], s.drawn.value, k)], drawn := None);
      && Table(order, s')
      && multiset(Ids(AllTiles(s'))) == multiset(Ids(AllTiles(s)))
      && HiddenCount(AllTiles(s')) == HiddenCount(AllTiles(s))
      && HiddenCount(s'.hands[p]) == HiddenCount(s.hands[p]) + HiddenCount([s.drawn.value])
  {
    var p, t := s.turnPlayerId, s.drawn.value;
    var hand := s.hands[p];
    var h := InsertAt(hand, t, k);
    var s' := s.(hands := s.hands[p := h], drawn := None);
    var before, after := RowUpdate(s.playerOrder, s.hands, p, h);
    assert AllTiles(s) == before + hand + (after + [t] + s.deck);
    assert AllTiles(s') == before + h + (after + s.deck);
    hide Genuine, Ordered, InsertAt;
    MoveIn(order, before, hand, t, k, after, s.deck);
    RowCounts(before, hand, after);
    RowCounts(before, h, after);
    InsertCounts(hand, t, k);
    HiddenAtMost([t]);
    assert |h| == |hand| + 1;
  }

  lemma RowCounts(a: seq<Tile>, b: seq<Tile>, c: seq<Tile>)
    ensures HiddenCount(a + b + c) == HiddenCount(a) + HiddenCount(b) + HiddenCount(c)
    ensures multiset(Ids(a + b + c)) == multiset(Ids(a)) + multiset(Ids(b)) + multiset(Ids(c))
  {
    HiddenConcat(a + b, c);
    HiddenConcat(a, b);
    IdsConcat(a + b, c);
    IdsConcat(a, b);
  }

  // ---------------------------------------------------------------- passing the turn

  lemma SurvivorsShrink(order: seq<PlayerId>, eliminated: seq<PlayerId>, p: PlayerId)
    requires NoDuplicates(order) && p in order && p !in eliminated
    ensures |Survivors(order, eliminated + [p])| == |Survivors(order, eliminated)| - 1
  {
    if order[0] == p {
      SurvivorsSame(order[1..], eliminated, p);
    } else {
      SurvivorsShrink(order[1..], eliminated, p);
    }
  }

  lemma SurvivorsSame(order: seq<PlayerId>, eliminated: seq<PlayerId>, p: PlayerId)
    requires p !in order
    ensures Survivors(order, eliminated + [p]) == Survivors(order, eliminated)
  {
    if order != [] { SurvivorsSame(order[1..], eliminated, p); }
  }

  /** `next` sits `k` seats on, and nobody in between is in `alive`. */
  ghost predicate FirstAlive(order: seq<PlayerId>, alive: seq<PlayerId>, seat: nat, from: nat, k: nat, next: PlayerId)
    requires order != [] && 1 <= from
  {
    && from <= k && SeatAfter(order, seat, k) == next && next in alive
    && forall j | from <= j < k :: SeatAfter(order, seat, j) !in alive
  }

  /** The search finds the first survivor from `step` seats on, whoever there is to find. */
  lemma {:induction false} SeekFinds(order: seq<PlayerId>, alive: seq<PlayerId>, seat: nat, current: PlayerId, step: nat, hit: nat)
    returns (k: nat)
    requires order != [] && seat < |order| && 1 <= step <= hit <= |order|
    requires SeatAfter(order, seat, hit) in alive
    ensures k <= hit && FirstAlive(order, alive, seat, step, k, SeekSurvivor(order, alive, seat, current, step))
    decreases hit - step
  {
    if SeatAfter(order, seat, step) in alive {
      k := step;
    } else {
      k := SeekFinds(order, alive, seat, current, step + 1, hit);
    }
  }

  /** Some survivor sits between one and |order| - 1 seats on from `current`, when there is another survivor. */
  lemma AnotherSeat(order: seq<PlayerId>, current: PlayerId, q: PlayerId) returns (hit: nat)
    requires current in order && q in order && q != current
    ensures 1 <= hit < |order| && SeatAfter(order, IndexOf(order, current), hit) == q
  {
    var seat, other := IndexOf(order, current), IndexOf(order, q);
    hit := if seat < other then other - seat else other - seat + |order|;
    assert (seat + hit) % |order| == other by { WrapsTo(seat + hit, other, |order|); }
  }

  lemma WrapsTo(x: nat, y: nat, n: nat)
    requires y < n && (x == y || x == y + n)
    ensures x % n == y
  {
  }

  lemma TwoSurvivors(order: seq<PlayerId>, eliminated: seq<PlayerId>, current: PlayerId) returns (q: PlayerId)
    requires NoDuplicates(order) && |Survivors(order, eliminated)| >= 2
    ensures q in Survivors(order, eliminated) && q in order && q != current
  {
    var alive := Survivors(order, eliminated);
    SurvivorsDistinct(order, eliminated);
    q := if alive[0] != current then alive[0] else alive[1];
    assert q in alive;
  }

  lemma SurvivorsDistinct(order: seq<PlayerId>, eliminated: seq<PlayerId>)
    requires NoDuplicates(order)
    ensures NoDuplicates(Survivors(order, eliminated))
  {
    if order != [] {
      SurvivorsDistinct(order[1..], eliminated);
      assert order[0] !in order[1..];
    }
  }

  /** The seat after `current`, among at least two survivors, is another player's. */
  lemma SeekPasses(order: seq<PlayerId>, eliminated: seq<PlayerId>, current: PlayerId) returns (k: nat)
    requires NoDuplicates(order) && current in order
    requires |Survivors(order, eliminated)| >= 2
    ensures var alive := Survivors(order, eliminated);
      var next := SeekSurvivor(order, alive, IndexOf(order, current), current, 1);
      && next != current && next in alive
      && 1 <= k < |order| && FirstAlive(order, alive, IndexOf(order, current), 1, k, next)
  {
    var alive := Survivors(order, eliminated);
    var seat := IndexOf(order, current);
    var q := TwoSurvivors(order, eliminated, current);
    var hit := AnotherSeat(order, current, q);
    k := SeekFinds(order, alive, seat, current, 1, hit);
    SeatMoves(seat, k, |order|);
  }

  /** The turn goes to the next player in seat order who is still in, and never back to the same one. */
  lemma AdvancePassesTurn(s: State, now: int)
    requires Seated(s) && Advance(s, now).phase != Finished
    ensures var s' := Advance(s, now); var alive := Survivors(s.playerOrder, s'.eliminated);
      && s'.turnPlayerId != s.turnPlayerId && s'.turnPlayerId in alive
      && exists k | 1 <= k < |s.playerOrder| ::
           FirstAlive(s.playerOrder, alive, IndexOf(s.playerOrder, s.turnPlayerId), 1, k, s'.turnPlayerId)
  {
    var k := SeekPasses(s.playerOrder, Advance(s, now).eliminated, s.turnPlayerId);
  }

  lemma SeatMoves(seat: nat, k: nat, n: nat)
    requires seat < n && 1 <= k < n
    ensures (seat + k) % n != seat
  {
    WrapsTo(seat + k, if seat + k < n then seat + k else seat + k - n, n);
  }

  /** What `Advance` needs of the state it is given, and what it makes of it. */
  ghost predicate ReadyToAdvance(order: seq<int>, s: State) {
    && Table(order, s)
    && |AllTiles(s)| + |s.eliminated| >= DECK_SIZE
    && s.drawn.None? && s.winnerId.None?
    && (forall p | p in s.playerOrder && p != s.turnPlayerId :: p in s.eliminated <==> WipedOut(s, p))
    && (s.turnPlayerId in s.eliminated ==> WipedOut(s, s.turnPlayerId))
    && |Survivors(s.playerOrder, s.eliminated)| >= 2
  }

  /** Eliminating the player whose turn ends leaves a survivor; with two left the turn is a survivor's. */
  lemma AdvanceSurvivors(s: State, now: int)
    requires Seated(s) && |Survivors(s.playerOrder, s.eliminated)| >= 2 && s.winnerId.None?
    ensures var s' := Advance(s, now);
      && s'.turnPlayerId in s.playerOrder
      && s'.eliminated == EliminatedAfterTurn(s)
      && (s'.phase == Guessing || s'.phase == Finished)
      && TurnOk(s'.phase, Survivors(s.playerOrder, s'.eliminated), s'.turnPlayerId, s'.winnerId)
  {
    if EliminatedAfterTurn(s) != s.eliminated {
      SurvivorsShrink(s.playerOrder, s.eliminated, s.turnPlayerId);
    }
    if Advance(s, now).phase != Finished {
      AdvancePassesTurn(s, now);
    }
  }

  /** Drawing the first tile of the deck keeps it on the table. */
  lemma FirstDraw(deck: seq<Tile>)
    ensures Held(if deck == [] then None else Some(deck[0])) + (if deck == [] then [] else deck[1..]) == deck
  {
  }

  lemma AdvanceDraws(s: State, now: int)
    requires s.drawn.None? && forall t | t in s.deck :: !t.revealed
    ensures var s' := Advance(s, now);
      Held(s'.drawn) + s'.deck == s.deck && DrawOk(s'.phase, s'.drawn, s'.deck)
  {
    hide EliminatedAfterTurn, Survivors, SeekSurvivor;
    FirstDraw(s.deck);
    if Advance(s, now).phase == Finished {
      assert [] + s.deck == s.deck;
    } else {
      hide Held;
      assert s.deck != [] ==> s.deck[0] in s.deck;
    }
  }

  /** Table, for a state that differs in whose turn it is, the deck's top tile and one more elimination. */
  lemma TableKept(order: seq<int>, s: State, s': State)
    requires Table(order, s) && s.drawn.None?
    requires s'.playerOrder == s.playerOrder && s'.hands == s.hands && s'.hits == s.hits
    requires s'.turnPlayerId in s.playerOrder
    requires s'.eliminated == s.eliminated
             || (s.turnPlayerId !in s.eliminated && s'.eliminated == s.eliminated + [s.turnPlayerId])
    requires Held(s'.drawn) + s'.deck == s.deck
    ensures Table(order, s') && AllTiles(s') == AllTiles(s)
    ensures |Held(s'.drawn)| + |s'.deck| == |s.deck|
  {
    assert AllTiles(s') == InHands(s) + (Held(s'.drawn) + s'.deck);
    assert AllTiles(s) == InHands(s) + s.deck;
    hide Genuine, Ordered;
    assert forall t | t in s'.deck :: t in s.deck;
  }

  lemma TurnEliminates(s: State)
    requires Seated(s)
    requires forall p | p in s.playerOrder && p != s.turnPlayerId :: p in s.eliminated <==> WipedOut(s, p)
    requires s.turnPlayerId in s.eliminated ==> WipedOut(s, s.turnPlayerId)
    ensures EliminatedIffWipedOut(s.playerOrder, s.hands, EliminatedAfterTurn(s))
  {
  }

  lemma AdvanceSound(order: seq<int>, s: State, now: int)
    requires ReadyToAdvance(order, s)
    ensures var s' := Advance(s, now);
      && Inv(order, s')
      && (s'.phase == Guessing || s'.phase == Finished)
      && AllTiles(s') == AllTiles(s)
      && |Held(s'.drawn)| + |s'.deck| == |s.deck|
  {
    var s' := Advance(s, now);
    AdvanceSurvivors(s, now);
    AdvanceDraws(s, now);
    TableKept(order, s, s');
    TurnEliminates(s);
    assert s'.playerOrder == s.playerOrder && s'.hands == s.hands;
    hide Table, TurnOk, DrawOk, EliminatedIffWipedOut, Survivors, AllTiles, Advance, EliminatedAfterTurn;
  }

  // ---------------------------------------------------------------- whole transitions

  /** `s'` is a legal successor of `s` with a smaller measure and the same tiles, but for those in `lost`. */
  ghost predicate Progress(order: seq<int>, s: State, s': State, lost: multiset<nat>)
    requires Seated(s)
  {
    && Inv(order, s')
    && s'.playerOrder == s.playerOrder
    && Measure(s') < Measure(s)
    && multiset(Ids(AllTiles(s'))) + lost == multiset(Ids(AllTiles(s)))
  }

  /** Inputs sequence numbers, clocks, versions and events are no part of the invariant. */
  lemma InvFrame(order: seq<int>, s: State, s': State)
    requires Inv(order, s)
    requires s' == s.(version := s'.version, turn := s'.turn, lastInputSeq := s'.lastInputSeq,
                      nextActionAt := s'.nextActionAt, lastEvent := s'.lastEvent)
    ensures Inv(order, s') && Measure(s') == Measure(s) && AllTiles(s') == AllTiles(s)
  {
    assert InHands(s') == InHands(s);
    hide Genuine, Ordered, NoDuplicates, Survivors;
  }

  lemma ReadyFrom(order: seq<int>, s: State, s': State)
    requires Inv(order, s) && s.phase != Finished
    requires Table(order, s') && |AllTiles(s')| == |AllTiles(s)| && s'.drawn.None?
    requires s'.playerOrder == s.playerOrder && s'.turnPlayerId == s.turnPlayerId
    requires s'.eliminated == s.eliminated && s'.winnerId == s.winnerId
    requires forall p | p in s.playerOrder && p != s.turnPlayerId :: s'.hands[p] == s.hands[p]
    ensures ReadyToAdvance(order, s')
  {
    hide Table, Survivors;
  }

  lemma InvSeated(order: seq<int>, s: State)
    requires Inv(order, s)
    ensures Seated(s)
  {
  }

  /** Passing the turn completes a transition whose first half paid for it. */
  lemma AdvanceProgress(order: seq<int>, s: State, s1: State, lost: multiset<nat>, now: int)
    requires Seated(s) && ReadyToAdvance(order, s1) && s1.playerOrder == s.playerOrder
    requires multiset(Ids(AllTiles(s1))) + lost == multiset(Ids(AllTiles(s)))
    requires 2 * HiddenCount(AllTiles(s1)) + 2 * |s1.deck| + 1 < Measure(s)
    ensures Progress(order, s, Advance(s1, now), lost) && Advance(s1, now).phase != Placing
  {
    AdvanceSound(order, s1, now);
    var s' := Advance(s1, now);
    InvSeated(order, s');
    assert s'.playerOrder == s1.playerOrder;
    hide Inv, AllTiles, HiddenCount, Advance, ReadyToAdvance, Seated, Ids;
  }

  /** The deck has run out and the turn is lost: the leftmost hidden tile is turned up. */
  lemma ConcludeByRevealing(order: seq<int>, s: State, now: int)
    requires Inv(order, s) && s.phase == Guessing && s.drawn.None?
    ensures Progress(order, s, ConcludeTurn(s, true, now), multiset{})
  {
    var p := s.turnPlayerId;
    var hand := s.hands[p];
    assert HiddenTiles(hand) != [];
    var t := HiddenTiles(hand)[0];
    HiddenMember(hand, t);
    HandGenuine(order, s, p);
    RevealOne(order, hand, t);
    var s1 := s.(hands := s.hands[p := Reveal(hand, t.id)]);
    ChangeHand(order, s, p, Reveal(hand, t.id));
    ReadyFrom(order, s, s1);
    assert ConcludeTurn(s, true, now) == Advance(s1, now);
    hide Inv, Table, AllTiles, Reveal, ConcludeTurn, Advance, Progress, ReadyToAdvance, NoDuplicates;
    AdvanceProgress(order, s, s1, multiset{}, now);
  }

  lemma ConcludeEmptyHanded(order: seq<int>, s: State, now: int)
    requires Inv(order, s) && s.phase == Deciding && s.drawn.None?
    ensures Progress(order, s, ConcludeTurn(s, false, now), multiset{})
  {
    ReadyFrom(order, s, s);
    hide Inv, Table, AllTiles, Advance, Progress, ReadyToAdvance, NoDuplicates;
    AdvanceProgress(order, s, s, multiset{}, now);
  }
}
