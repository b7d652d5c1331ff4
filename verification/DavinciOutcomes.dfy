/**
 * Da Vinci Code: the rules of the table, said of the state before and the state
 * after an input, and the proof that the five inputs follow them.
 */
module DavinciOutcomes {
  import opened Wrappers
  import opened DavinciState
  import opened DavinciRules
  import opened DavinciInvariant
  import opened DavinciSteps

  // ---------------------------------------------------------------- the rules

  ghost predicate AllOpen(hand: seq<Tile>) {
    forall t | t in hand :: t.revealed
  }

  ghost predicate Opens(hand: seq<Tile>, k: nat, hand': seq<Tile>) {
    k < |hand| && !hand[k].revealed && hand' == hand[k := hand[k].(revealed := true)]
  }

  predicate StillIn(s: State, p: PlayerId) {
    p in s.playerOrder && p !in s.eliminated
  }

  ghost predicate AtMostOneIn(s: State) {
    forall p, q | StillIn(s, p) && StillIn(s, q) :: p == q
  }

  /** Nobody but `p` has other tiles than before. */
  ghost predicate OnlyHandOf(s: State, s': State, p: PlayerId) {
    p in s'.hands && s'.hands == s.hands[p := s'.hands[p]]
  }

  /** The game is over, and whoever is still in has won it. */
  ghost predicate Ended(s': State) {
    s'.phase == Finished && s'.nextActionAt == 0 && forall p | StillIn(s', p) :: s'.winnerId == Some(p)
  }

  /** The seat `k` places on from place `i`. */
  function Seat(order: seq<PlayerId>, i: nat, k: nat): PlayerId
    requires i < |order| && k < |order|
  {
    order[if i + k < |order| then i + k else i + k - |order|]
  }

  /** The player whose seat comes first after that of `p` among those still in. */
  ghost predicate FollowsInSeat(s': State, p: PlayerId, next: PlayerId) {
    && next != p && StillIn(s', next)
    && exists i: nat, k: nat | i < |s'.playerOrder| && 1 <= k < |s'.playerOrder| ::
         && s'.playerOrder[i] == p && Seat(s'.playerOrder, i, k) == next
         && forall j: nat | 1 <= j < k :: !StillIn(s', Seat(s'.playerOrder, i, j))
  }

  /**
   * The turn player of `s`, whose tile is settled, is out if nothing of theirs is
   * hidden. With one player left the game is over; else the next one still in
   * draws the top of the deck and has thirty seconds to guess.
   */
  ghost predicate TurnPassed(s: State, s': State, now: int) {
    var p := s.turnPlayerId;
    && p in s'.hands && s'.playerOrder == s.playerOrder && s'.hits == s.hits
    && (forall q :: q in s'.eliminated <==> q in s.eliminated || (q == p && AllOpen(s'.hands[p])))
    && if AtMostOneIn(s') then Ended(s') && s'.turnPlayerId == p && s'.drawn.None? && s'.deck == s.deck && s'.turn == s.turn
       else
         && s'.phase == Guessing && s'.winnerId == s.winnerId && FollowsInSeat(s', p, s'.turnPlayerId)
         && (if s.deck == [] then s'.deck == [] && s'.drawn.None?
             else s'.deck == s.deck[1..] && s'.drawn == Some(s.deck[0]))
         && s'.turn == s.turn + 1 && s'.nextActionAt == now + 30_000
  }

  /** A numbered tile stands at the leftmost place that keeps the hand in order. */
  ghost predicate StandsInOrder(hand: seq<Tile>, t: Tile, hand': seq<Tile>) {
    && Ordered(hand')
    && exists k | 0 <= k <= |hand| ::
         && hand' == hand[..k] + [t] + hand[k..]
         && forall j | 0 <= j < k :: !Ordered(hand[..j] + [t] + hand[j..])
  }

  /**
   * The turn ends, failed or not. A drawn number goes into the hand, face up if
   * the turn failed; a drawn joker is held the same way while its place is asked
   * for. With nothing drawn a failed turn opens the leftmost hidden tile instead.
   */
  ghost predicate TurnEnds(s: State, failed: bool, s': State, now: int)
    requires s.turnPlayerId in s.hands
  {
    var p := s.turnPlayerId;
    var hand := s.hands[p];
    if s.drawn.Some? && IsJoker(s.drawn.value) then
      s' == s.(phase := Placing, drawn := Some(s.drawn.value.(revealed := failed)), nextActionAt := now + 15_000,
               version := s'.version, lastInputSeq := s'.lastInputSeq, lastEvent := s'.lastEvent)
    else
      && OnlyHandOf(s, s', p) && TurnPassed(s, s', now)
      && if s.drawn.Some? then StandsInOrder(hand, s.drawn.value.(revealed := failed), s'.hands[p])
         else if failed && !AllOpen(hand) then
           exists k: nat | k < |hand| :: Opens(hand, k, s'.hands[p]) && AllOpen(hand[..k])
         else s'.hands[p] == hand
  }

  // ---------------------------------------------------------------- passing the turn

  lemma HiddenIffOpen(hand: seq<Tile>)
    ensures HiddenTiles(hand) == [] <==> AllOpen(hand)
  {
    if HiddenTiles(hand) != [] {
      HiddenMember(hand, HiddenTiles(hand)[0]);
    }
    if t :| t in hand && !t.revealed {
      HiddenMember(hand, t);
      assert t in HiddenTiles(hand);
    }
  }

  lemma SurvivorsAtMostOne(s: State)
    requires NoDuplicates(s.playerOrder)
    ensures |Survivors(s.playerOrder, s.eliminated)| <= 1 <==> AtMostOneIn(s)
  {
    var alive := Survivors(s.playerOrder, s.eliminated);
    SurvivorsDistinct(s.playerOrder, s.eliminated);
    if |alive| >= 2 {
      assert alive[0] in alive && alive[1] in alive && alive[0] != alive[1];
      assert StillIn(s, alive[0]) && StillIn(s, alive[1]);
    } else {
      forall p, q | StillIn(s, p) && StillIn(s, q) ensures p == q {
        assert p in alive && q in alive;
      }
    }
  }

  lemma SeatIsSeatAfter(order: seq<PlayerId>, i: nat, k: nat)
    requires i < |order| && 1 <= k < |order|
    ensures Seat(order, i, k) == SeatAfter(order, i, k)
  {
    WrapsTo(i + k, if i + k < |order| then i + k else i + k - |order|, |order|);
  }

  lemma FirstAliveFollows(s': State, p: PlayerId, i: nat, k: nat, next: PlayerId)
    requires i < |s'.playerOrder| && 1 <= k < |s'.playerOrder| && s'.playerOrder[i] == p && next != p
    requires FirstAlive(s'.playerOrder, Survivors(s'.playerOrder, s'.eliminated), i, 1, k, next)
    ensures FollowsInSeat(s', p, next)
  {
    var alive := Survivors(s'.playerOrder, s'.eliminated);
    forall j: nat | 1 <= j < k ensures !StillIn(s', Seat(s'.playerOrder, i, j)) {
      SeatIsSeatAfter(s'.playerOrder, i, j);
      assert SeatAfter(s'.playerOrder, i, j) !in alive;
    }
    SeatIsSeatAfter(s'.playerOrder, i, k);
    hide Seat, SeatAfter, Survivors;
  }

  lemma AdvanceFollows(s: State, now: int)
    requires Seated(s) && Advance(s, now).phase != Finished
    ensures FollowsInSeat(Advance(s, now), s.turnPlayerId, Advance(s, now).turnPlayerId)
  {
    hide Advance, FirstAlive, FollowsInSeat, Survivors;
    AdvanceKeepsSeats(s, now);
    AdvancePassesTurn(s, now);
    var s' := Advance(s, now);
    var i := IndexOf(s.playerOrder, s.turnPlayerId);
    var k :| 1 <= k < |s.playerOrder|
             && FirstAlive(s.playerOrder, Survivors(s.playerOrder, s'.eliminated), i, 1, k, s'.turnPlayerId);
    FirstAliveFollows(s', s.turnPlayerId, i, k, s'.turnPlayerId);
  }

  lemma AdvanceKeepsSeats(s: State, now: int)
    ensures var s' := Advance(s, now);
      && s'.playerOrder == s.playerOrder && s'.hands == s.hands && s'.hits == s.hits
      && s'.version == s.version && s'.lastInputSeq == s.lastInputSeq && s'.lastEvent == s.lastEvent
  {
    hide Survivors, SeekSurvivor, HiddenTiles;
  }

  lemma AdvanceOut(s: State, now: int, q: PlayerId)
    requires Seated(s)
    ensures q in Advance(s, now).eliminated <==> q in s.eliminated || (q == s.turnPlayerId && AllOpen(s.hands[q]))
  {
    HiddenIffOpen(s.hands[s.turnPlayerId]);
    hide HiddenTiles, SeekSurvivor, Survivors, AllOpen;
  }

  lemma AdvanceShape(s: State, now: int)
    ensures var s' := Advance(s, now); var alive := Survivors(s.playerOrder, s'.eliminated);
      && if |alive| <= 1 then
           s' == s.(phase := Finished, nextActionAt := 0, winnerId := if alive == [] then None else Some(alive[0]),
                    eliminated := s'.eliminated)
         else
           && s'.phase == Guessing && s'.winnerId == s.winnerId && s'.turn == s.turn + 1 && s'.nextActionAt == now + 30_000
           && (if s.deck == [] then s'.deck == [] && s'.drawn.None?
               else s'.deck == s.deck[1..] && s'.drawn == Some(s.deck[0]))
  {
    hide Survivors, SeekSurvivor, HiddenTiles;
  }

  lemma LastIsWinner(s: State)
    requires AtMostOneIn(s)
    requires var alive := Survivors(s.playerOrder, s.eliminated); s.winnerId == if alive == [] then None else Some(alive[0])
    ensures forall p | StillIn(s, p) :: s.winnerId == Some(p)
  {
    hide Survivors;
    forall p | StillIn(s, p) ensures s.winnerId == Some(p) {
      var alive := Survivors(s.playerOrder, s.eliminated);
      assert p in alive && alive[0] in alive;
      assert StillIn(s, alive[0]);
    }
  }

  lemma AdvanceEnds(s: State, now: int)
    requires Seated(s) && s.drawn.None? && s.phase != Finished
    ensures var s' := Advance(s, now);
      if AtMostOneIn(s') then
        Ended(s') && s'.turnPlayerId == s.turnPlayerId && s'.drawn.None? && s'.deck == s.deck && s'.turn == s.turn
      else
        && s'.phase == Guessing && s'.winnerId == s.winnerId && s'.turn == s.turn + 1 && s'.nextActionAt == now + 30_000
        && (if s.deck == [] then s'.deck == [] && s'.drawn.None?
            else s'.deck == s.deck[1..] && s'.drawn == Some(s.deck[0]))
  {
    hide Survivors, AtMostOneIn, StillIn, NoDuplicates, Advance;
    var s' := Advance(s, now);
    AdvanceKeepsSeats(s, now);
    AdvanceShape(s, now);
    SurvivorsAtMostOne(s');
    if AtMostOneIn(s') { LastIsWinner(s'); }
  }

  lemma AdvanceOutcome(s: State, now: int)
    requires Seated(s) && s.drawn.None? && s.phase != Finished
    ensures TurnPassed(s, Advance(s, now), now) && Advance(s, now).hands == s.hands
    ensures Advance(s, now).phase != Placing
    ensures var s' := Advance(s, now);
      s'.version == s.version && s'.lastInputSeq == s.lastInputSeq && s'.lastEvent == s.lastEvent
  {
    hide Advance, AllOpen, FollowsInSeat, AtMostOneIn, NoDuplicates;
    var s' := Advance(s, now);
    AdvanceKeepsSeats(s, now);
    AdvanceEnds(s, now);
    forall q ensures q in s'.eliminated <==> q in s.eliminated || (q == s.turnPlayerId && AllOpen(s.hands[q])) {
      AdvanceOut(s, now, q);
    }
    if s'.phase != Finished { AdvanceFollows(s, now); }
  }

  // ---------------------------------------------------------------- ending a turn

  lemma InsertStands(hand: seq<Tile>, t: Tile)
    requires Ordered(hand) && !IsJoker(t) && forall x | x in hand :: x.face != t.face
    ensures StandsInOrder(hand, t, InsertAt(hand, t, InsertIndexOf(hand, t.face)))
  {
    InsertKeepsOrder(hand, t);
    var k := InsertIndexOf(hand, t.face);
    forall j | 0 <= j < k ensures !Ordered(hand[..j] + [t] + hand[j..]) {
      InsertIndexIsLeftmost(hand, t, j);
    }
    hide Ordered, InsertIndexOf;
  }

  lemma {:induction false} LeftmostHidden(hand: seq<Tile>) returns (k: nat)
    requires HiddenTiles(hand) != []
    ensures k < |hand| && HiddenTiles(hand)[0] == hand[k] && !hand[k].revealed && AllOpen(hand[..k])
  {
    if !hand[0].revealed {
      k := 0;
    } else {
      var i := LeftmostHidden(hand[1..]);
      k := i + 1;
      assert hand[..k] == [hand[0]] + hand[1..][..i];
    }
  }

  lemma RevealOpens(order: seq<int>, hand: seq<Tile>, k: nat)
    requires Genuine(order, hand) && k < |hand| && !hand[k].revealed
    ensures Opens(hand, k, Reveal(hand, hand[k].id))
  {
    OtherIdsDiffer(order, hand, k);
    hide Genuine;
  }

  /** What `ConcludeTurn` makes of a numbered tile, or of none: one hand changes, then the turn passes. */
  lemma HandThenPassed(s: State, hand: seq<Tile>, now: int, s': State)
    requires Seated(s) && s.phase != Finished
    requires s' == Advance(s.(hands := s.hands[s.turnPlayerId := hand], drawn := None), now)
    ensures OnlyHandOf(s, s', s.turnPlayerId) && s'.hands[s.turnPlayerId] == hand && TurnPassed(s, s', now)
    ensures s'.phase != Placing
    ensures s'.version == s.version && s'.lastInputSeq == s.lastInputSeq && s'.lastEvent == s.lastEvent
  {
    hide Advance, AllOpen, FollowsInSeat, AtMostOneIn, NoDuplicates, Ended;
    AdvanceOutcome(s.(hands := s.hands[s.turnPlayerId := hand], drawn := None), now);
  }

  lemma JokerIsHeld(s: State, failed: bool, now: int)
    requires s.drawn.Some? && IsJoker(s.drawn.value) && (!failed ==> !s.drawn.value.revealed) && s.turnPlayerId in s.hands
    ensures TurnEnds(s, failed, ConcludeTurn(s, failed, now), now)
    ensures var s' := ConcludeTurn(s, failed, now);
      s'.version == s.version && s'.lastInputSeq == s.lastInputSeq && s'.lastEvent == s.lastEvent
  {
  }

  lemma ConcludeOutcome(order: seq<int>, s: State, failed: bool, now: int)
    requires Inv(order, s) && (s.phase == Guessing || s.phase == Deciding)
    ensures var s' := ConcludeTurn(s, failed, now);
      && TurnEnds(s, failed, s', now)
      && s'.version == s.version && s'.lastInputSeq == s.lastInputSeq && s'.lastEvent == s.lastEvent
  {
    var p := s.turnPlayerId;
    var hand := s.hands[p];
    var s' := ConcludeTurn(s, failed, now);
    InvSeated(order, s);
    if s.drawn.Some? && IsJoker(s.drawn.value) {
      JokerIsHeld(s, failed, now);
    } else if s.drawn.Some? {
      var tile := s.drawn.value.(revealed := failed);
      DrawnIsNew(order, s, p);
      InsertStands(hand, tile);
      HandThenPassed(s, InsertAt(hand, tile, InsertIndexOf(hand, tile.face)), now, s');
      hide Advance, StandsInOrder, TurnPassed, InsertAt, Inv, Seated;
    } else {
      NothingDrawn(order, s, failed, now);
    }
  }

  lemma NothingDrawn(order: seq<int>, s: State, failed: bool, now: int)
    requires Inv(order, s) && (s.phase == Guessing || s.phase == Deciding) && s.drawn.None?
    ensures var s' := ConcludeTurn(s, failed, now);
      && TurnEnds(s, failed, s', now)
      && s'.version == s.version && s'.lastInputSeq == s.lastInputSeq && s'.lastEvent == s.lastEvent
  {
    var p := s.turnPlayerId;
    InvSeated(order, s);
    var hand := s.hands[p];
    HiddenIffOpen(hand);
    if failed && HiddenTiles(hand) != [] {
      var k := LeftmostHidden(hand);
      HandGenuine(order, s, p);
      RevealOpens(order, hand, k);
      hide Advance, TurnPassed, Inv, Reveal, Opens, HiddenTiles, AllOpen, Genuine;
      HandThenPassed(s, Reveal(hand, hand[k].id), now, ConcludeTurn(s, failed, now));
    } else {
      hide Advance, TurnPassed, Inv, HiddenTiles, AllOpen;
      assert s.hands[p := hand] == s.hands && s.(hands := s.hands[p := hand], drawn := None) == s;
      HandThenPassed(s, hand, now, ConcludeTurn(s, failed, now));
    }
  }

  // ---------------------------------------------------------------- the inputs

  /** The input counts: one version more, and its number is the player's last. */
  predicate Taken(s: State, p: PlayerId, q: int, s': State) {
    s'.version == s.version + 1 && s'.lastInputSeq == s.lastInputSeq[p := q]
  }

  /** It is the player's turn in this phase, and the number is a new one. */
  predicate MayAct(s: State, phase: Phase, p: PlayerId, q: int) {
    s.phase == phase && s.turnPlayerId == p && (p in s.lastInputSeq ==> q > s.lastInputSeq[p]) && (p !in s.lastInputSeq ==> q >= 0)
  }

  predicate StandsHidden(hand: seq<Tile>, id: nat, k: nat) {
    k < |hand| && hand[k].id == id && !hand[k].revealed
  }

  /** A call anyone still in can be met with: a number from 0 to 11, or -1 for the joker, and one of their hidden tiles. */
  ghost predicate MayCall(s: State, p: PlayerId, q: int, target: PlayerId, tile: nat, number: int) {
    && MayAct(s, Guessing, p, q) && target != p && StillIn(s, target) && (number == -1 || 0 <= number <= 11)
    && target in s.hands && exists k: nat | k < |s.hands[target]| :: StandsHidden(s.hands[target], tile, k)
  }

  /** The called tile is opened and the caller credited; they may go on unless that ends the game. */
  ghost predicate CallOpens(s: State, target: PlayerId, k: nat, s': State, now: int)
    requires target in s.hands
  {
    && OnlyHandOf(s, s', target) && Opens(s.hands[target], k, s'.hands[target])
    && s'.hits == s.hits[s.turnPlayerId := At(s.hits, s.turnPlayerId, 0) + 1]
    && s'.playerOrder == s.playerOrder && s'.turnPlayerId == s.turnPlayerId && s'.turn == s.turn
    && s'.drawn == s.drawn && s'.deck == s.deck
    && (forall q :: q in s'.eliminated <==> q in s.eliminated || (q == target && AllOpen(s'.hands[target])))
    && if AtMostOneIn(s') then Ended(s')
       else s'.phase == Deciding && s'.winnerId == s.winnerId && s'.nextActionAt == now + 15_000
  }

  ghost predicate GuessRule(s: State, p: PlayerId, q: int, target: PlayerId, tile: nat, number: int, now: int, s': State)
    requires s.turnPlayerId in s.hands
  {
    if !MayCall(s, p, q, target, tile, number) then s' == s
    else
      && Taken(s, p, q, s')
      && exists k: nat | k < |s.hands[target]| ::
           && StandsHidden(s.hands[target], tile, k)
           && var right := s.hands[target][k].face.number == number;
           && s'.lastEvent == Some(Event(GuessEvent, p, Some(target), Some(tile), Some(number), right, now))
           && if right then CallOpens(s, target, k, s', now) else TurnEnds(s, true, s', now)
  }

  /** Going on keeps everything for another guess; stopping ends a turn that did not fail. */
  ghost predicate DecideRule(s: State, p: PlayerId, q: int, decision: Decision, now: int, s': State)
    requires s.turnPlayerId in s.hands
  {
    if !MayAct(s, Deciding, p, q) then s' == s
    else
      && Taken(s, p, q, s') && s'.lastEvent == s.lastEvent
      && match decision
         case Continue =>
           s' == s.(phase := Guessing, nextActionAt := now + 30_000, version := s'.version, lastInputSeq := s'.lastInputSeq)
         case Stop => TurnEnds(s, false, s', now)
  }

  /** The held joker goes where it is asked to, face up or not as it is held. */
  ghost predicate JokerPlaced(s: State, index: int, s': State, now: int)
    requires s.turnPlayerId in s.hands && s.drawn.Some? && 0 <= index <= |s.hands[s.turnPlayerId]|
  {
    var p := s.turnPlayerId;
    var hand := s.hands[p];
    OnlyHandOf(s, s', p) && s'.hands[p] == hand[..index] + [s.drawn.value] + hand[index..] && TurnPassed(s, s', now)
  }

  ghost predicate PlaceRule(s: State, p: PlayerId, q: int, index: int, now: int, s': State)
    requires s.turnPlayerId in s.hands
  {
    if MayAct(s, Placing, p, q) && s.drawn.Some? && 0 <= index <= |s.hands[p]|
    then Taken(s, p, q, s') && s'.lastEvent == s.lastEvent && JokerPlaced(s, index, s', now)
    else s' == s
  }

  /** Too late to guess is a failed turn, too late to decide is stopping, and a joker nobody places goes to the right end. */
  ghost predicate ExpireRule(s: State, now: int, s': State)
    requires s.turnPlayerId in s.hands
  {
    if s.phase == Finished then s' == s
    else
      && s'.version == s.version + 1 && s'.lastInputSeq == s.lastInputSeq
      && s'.lastEvent == Some(Event(TimeoutEvent, s.turnPlayerId, None, None, None, false, now))
      && if s.phase == Placing then s.drawn.Some? && JokerPlaced(s, |s.hands[s.turnPlayerId]|, s', now)
         else TurnEnds(s, s.phase == Guessing, s', now)
  }

  /** Every tile of who leaves is opened where it stands. If it was their turn the tile they drew is gone and the turn passes. */
  ghost predicate ForfeitRule(s: State, p: PlayerId, now: int, s': State) {
    if s.phase == Finished || !StillIn(s, p) || p !in s.hands then s' == s
    else
      && s'.version == s.version + 1 && s'.lastInputSeq == s.lastInputSeq
      && s'.lastEvent == Some(Event(ForfeitEvent, p, None, None, None, false, now))
      && OnlyHandOf(s, s', p) && SameTiles(s.hands[p], s'.hands[p]) && AllOpen(s'.hands[p])
      && var out := s.(eliminated := s.eliminated + [p]);
      if AtMostOneIn(out) then
        && Ended(s') && s'.eliminated == out.eliminated && s'.playerOrder == s.playerOrder && s'.hits == s.hits
        && s'.turnPlayerId == s.turnPlayerId && s'.drawn == s.drawn && s'.deck == s.deck && s'.turn == s.turn
      else if s.turnPlayerId != p then
        s' == out.(hands := s'.hands, version := s'.version, lastEvent := s'.lastEvent)
      else TurnPassed(out, s', now)
  }

  ghost predicate Rules(s: State, i: TimedInput, s': State)
    requires s.turnPlayerId in s.hands
  {
    match i.input
    case GuessInput(p, q, target, tile, number) => GuessRule(s, p, q, target, tile, number, i.now, s')
    case DecideInput(p, q, decision) => DecideRule(s, p, q, decision, i.now, s')
    case PlaceInput(p, q, index) => PlaceRule(s, p, q, index, i.now, s')
    case ExpireInput => ExpireRule(s, i.now, s')
    case ForfeitInput(p) => ForfeitRule(s, p, i.now, s')
  }

  // ---------------------------------------------------------------- the inputs follow them

  /** What an input writes besides is nothing a turn's end speaks of. */
  lemma TurnEndsFrame(s: State, s0: State, failed: bool, t: State, s': State, now: int)
    requires s0 == s.(lastInputSeq := s0.lastInputSeq) && s.turnPlayerId in s.hands && TurnEnds(s0, failed, t, now)
    requires s' == t.(version := s'.version, lastEvent := s'.lastEvent)
    ensures TurnEnds(s, failed, s', now)
  {
    if !(s.drawn.Some? && IsJoker(s.drawn.value)) {
      PassedFrame(s, s0, t, s', now);
    }
    hide TurnPassed, Ordered, Opens, AllOpen;
  }

  lemma PassedFrame(s: State, s0: State, t: State, s': State, now: int)
    requires s0 == s.(lastInputSeq := s0.lastInputSeq) && TurnPassed(s0, t, now)
    requires s' == t.(version := s'.version, lastEvent := s'.lastEvent)
    ensures TurnPassed(s, s', now)
  {
    StillInFrame(t, s');
    hide AllOpen, Seat;
  }

  lemma StillInFrame(t: State, s': State)
    requires s' == t.(version := s'.version, lastEvent := s'.lastEvent)
    ensures forall p :: StillIn(t, p) <==> StillIn(s', p)
    ensures AtMostOneIn(t) <==> AtMostOneIn(s')
  {
  }

  lemma DecideFollows(order: seq<int>, s: State, p: PlayerId, q: int, decision: Decision, now: int)
    requires Inv(order, s)
    ensures s.turnPlayerId in s.hands && DecideRule(s, p, q, decision, now, Decide(s, p, q, decision, now))
  {
    hide Inv, ConcludeTurn, TurnEnds;
    InvSeated(order, s);
    assert s.turnPlayerId in s.hands;
    hide Seated;
    if MayAct(s, Deciding, p, q) && decision == Stop {
      var s0 := s.(lastInputSeq := s.lastInputSeq[p := q]);
      InvFrame(order, s, s0);
      ConcludeOutcome(order, s0, false, now);
      TurnEndsFrame(s, s0, false, ConcludeTurn(s0, false, now), Decide(s, p, q, decision, now), now);
    }
  }

  lemma PlaceOutcome(order: seq<int>, s: State, index: int, now: int)
    requires Inv(order, s) && s.phase == Placing && 0 <= index <= |HandOf(s, s.turnPlayerId)|
    ensures s.turnPlayerId in s.hands && s.drawn.Some?
    ensures var s' := PlaceDrawn(s, index, now);
      && JokerPlaced(s, index, s', now) && s'.phase != Placing
      && s'.version == s.version && s'.lastInputSeq == s.lastInputSeq && s'.lastEvent == s.lastEvent
  {
    InvSeated(order, s);
    hide Advance, TurnPassed, Table, Survivors, AllTiles, NoDuplicates;
    HandThenPassed(s, InsertAt(s.hands[s.turnPlayerId], s.drawn.value, index), now, PlaceDrawn(s, index, now));
  }

  lemma PlaceOff(s: State, index: int, now: int)
    requires !(0 <= index <= |HandOf(s, s.turnPlayerId)|)
    ensures PlaceDrawn(s, index, now) == s
  {
    hide Advance;
  }

  lemma PlaceFollows(order: seq<int>, s: State, p: PlayerId, q: int, index: int, now: int)
    requires Inv(order, s)
    ensures s.turnPlayerId in s.hands && PlaceRule(s, p, q, index, now, Place(s, p, q, index, now))
  {
    hide Inv, PlaceDrawn, TurnPassed;
    InvSeated(order, s);
    assert s.turnPlayerId in s.hands;
    hide Seated;
    if MayAct(s, Placing, p, q) {
      var s0 := s.(lastInputSeq := s.lastInputSeq[p := q]);
      if 0 <= index <= |s.hands[p]| {
        InvFrame(order, s, s0);
        PlaceOutcome(order, s0, index, now);
        PassedFrame(s, s0, PlaceDrawn(s0, index, now), Place(s, p, q, index, now), now);
      } else {
        PlaceOff(s0, index, now);
      }
    }
  }

  lemma ExpireFollows(order: seq<int>, s: State, now: int)
    requires Inv(order, s)
    ensures s.turnPlayerId in s.hands && ExpireRule(s, now, Expire(s, now))
  {
    InvSeated(order, s);
    if s.phase == Placing {
      PlaceOutcome(order, s, |s.hands[s.turnPlayerId]|, now);
      hide Inv, PlaceDrawn, TurnPassed;
      PassedFrame(s, s, PlaceDrawn(s, |s.hands[s.turnPlayerId]|, now), Expire(s, now), now);
    } else if s.phase != Finished {
      ConcludeOutcome(order, s, s.phase == Guessing, now);
      hide Inv, ConcludeTurn, TurnEnds;
      TurnEndsFrame(s, s, s.phase == Guessing, ConcludeTurn(s, s.phase == Guessing, now), Expire(s, now), now);
    }
  }

  /** The tile looked for is the one that stands there. */
  lemma FoundStands(order: seq<int>, s: State, target: PlayerId, tile: nat)
    requires Inv(order, s) && target in s.playerOrder
    ensures target in s.hands
    ensures var found := FindTile(s.hands[target], tile);
      (found.Some? && !found.value.revealed) <==> exists k: nat | k < |s.hands[target]| :: StandsHidden(s.hands[target], tile, k)
    ensures forall k: nat | k < |s.hands[target]| && StandsHidden(s.hands[target], tile, k) ::
      FindTile(s.hands[target], tile) == Some(s.hands[target][k])
  {
    InvSeated(order, s);
    HandGenuine(order, s, target);
    var hand := s.hands[target];
    forall k: nat | k < |hand| && StandsHidden(hand, tile, k) ensures FindTile(hand, tile) == Some(hand[k]) {
      OnlyOneFound(order, hand, k);
    }
    var found := FindTile(hand, tile);
    if found.Some? && !found.value.revealed {
      var k :| 0 <= k < |hand| && hand[k] == found.value;
      assert StandsHidden(hand, tile, k);
    }
    hide Inv, Genuine;
  }

  lemma OnlyOneFound(order: seq<int>, hand: seq<Tile>, k: nat)
    requires Genuine(order, hand) && k < |hand|
    ensures FindTile(hand, hand[k].id) == Some(hand[k])
  {
    OtherIdsDiffer(order, hand, k);
    hide Genuine;
    var found := FindTile(hand, hand[k].id);
    assert hand[k] in hand;
  }

  lemma MayCallIsAccepted(order: seq<int>, s: State, p: PlayerId, q: int, target: PlayerId, tile: nat, number: int)
    requires Inv(order, s)
    ensures MayCall(s, p, q, target, tile, number) <==> GuessAccepted(s, p, q, target, tile, number)
  {
    InvSeated(order, s);
    if target in s.playerOrder { FoundStands(order, s, target, tile); }
    hide Inv, FindTile, StandsHidden;
  }

  lemma HitChanges(s: State, p: PlayerId, q: int, target: PlayerId, tile: nat, number: int, now: int)
    requires target in s.hands
    ensures var s' := GuessHit(s, p, q, target, tile, number, now);
      && s'.hands == s.hands[target := Reveal(s.hands[target], tile)]
      && s'.hits == s.hits[p := At(s.hits, p, 0) + 1]
      && s'.playerOrder == s.playerOrder && s'.turnPlayerId == s.turnPlayerId && s'.turn == s.turn
      && s'.drawn == s.drawn && s'.deck == s.deck && Taken(s, p, q, s')
      && s'.lastEvent == Some(Event(GuessEvent, p, Some(target), Some(tile), Some(number), true, now))
      && forall x :: x in s'.eliminated <==> x in s.eliminated || (x == target && AllOpen(Reveal(s.hands[target], tile)))
  {
    HiddenIffOpen(Reveal(s.hands[target], tile));
    hide Reveal, HiddenTiles, Survivors, AllOpen;
  }

  lemma InvHandGenuine(order: seq<int>, s: State, p: PlayerId)
    requires Inv(order, s) && p in s.playerOrder
    ensures p in s.hands && Genuine(order, s.hands[p])
  {
    hide Genuine, AllTiles, Survivors;
    HandGenuine(order, s, p);
  }

  lemma RightFollows(order: seq<int>, s: State, p: PlayerId, q: int, target: PlayerId, tile: nat, number: int, now: int, k: nat)
    requires Inv(order, s) && s.turnPlayerId == p && target in s.playerOrder
    requires target in s.hands && k < |s.hands[target]| && StandsHidden(s.hands[target], tile, k)
    ensures CallOpens(s, target, k, GuessHit(s, p, q, target, tile, number, now), now)
  {
    hide Genuine, GuessHit, Reveal, Opens, AllOpen, AtMostOneIn, Ended, Inv;
    InvSeated(order, s);
    InvHandGenuine(order, s, target);
    RevealOpens(order, s.hands[target], k);
    HitChanges(s, p, q, target, tile, number, now);
    HitEnds(s, p, q, target, tile, number, now);
  }

  lemma HitEnds(s: State, p: PlayerId, q: int, target: PlayerId, tile: nat, number: int, now: int)
    requires target in s.hands && NoDuplicates(s.playerOrder)
    ensures var s' := GuessHit(s, p, q, target, tile, number, now);
      if AtMostOneIn(s') then Ended(s')
      else s'.phase == Deciding && s'.winnerId == s.winnerId && s'.nextActionAt == now + 15_000
  {
    var s' := GuessHit(s, p, q, target, tile, number, now);
    SurvivorsAtMostOne(s');
    if AtMostOneIn(s') { OneLeftWins(s', Survivors(s.playerOrder, s'.eliminated)); }
    hide Reveal, HiddenTiles, Survivors, AtMostOneIn, StillIn, NoDuplicates;
  }

  lemma OneLeftWins(s: State, alive: seq<PlayerId>)
    requires AtMostOneIn(s) && alive == Survivors(s.playerOrder, s.eliminated)
    ensures forall p | StillIn(s, p) :: alive != [] && alive[0] == p
  {
    hide Survivors;
    forall p | StillIn(s, p) ensures alive != [] && alive[0] == p {
      assert p in alive && alive[0] in alive;
      assert StillIn(s, alive[0]);
    }
  }

  lemma WrongFollows(order: seq<int>, s: State, p: PlayerId, q: int, target: PlayerId, tile: nat, number: int, now: int)
    requires Inv(order, s) && s.phase == Guessing
    ensures s.turnPlayerId in s.hands && TurnEnds(s, true, GuessMiss(s, p, q, target, tile, number, now), now)
  {
    InvSeated(order, s);
    var s0 := s.(lastInputSeq := s.lastInputSeq[p := q]);
    InvFrame(order, s, s0);
    ConcludeOutcome(order, s0, true, now);
    hide Inv, ConcludeTurn, TurnEnds;
    TurnEndsFrame(s, s0, true, ConcludeTurn(s0, true, now), GuessMiss(s, p, q, target, tile, number, now), now);
  }

  lemma MissRecords(order: seq<int>, s: State, p: PlayerId, q: int, target: PlayerId, tile: nat, number: int, now: int)
    requires Inv(order, s) && s.phase == Guessing
    ensures var s' := GuessMiss(s, p, q, target, tile, number, now);
      && Taken(s, p, q, s') && s'.lastEvent == Some(Event(GuessEvent, p, Some(target), Some(tile), Some(number), false, now))
  {
    var s0 := s.(lastInputSeq := s.lastInputSeq[p := q]);
    InvFrame(order, s, s0);
    ConcludeOutcome(order, s0, true, now);
    hide Inv, ConcludeTurn, TurnEnds;
  }

  lemma GuessFollows(order: seq<int>, s: State, p: PlayerId, q: int, target: PlayerId, tile: nat, number: int, now: int)
    requires Inv(order, s)
    ensures s.turnPlayerId in s.hands && GuessRule(s, p, q, target, tile, number, now, Guess(s, p, q, target, tile, number, now))
  {
    hide Inv, GuessAccepted, GuessMiss, GuessHit, TurnEnds, CallOpens, FindTile, Taken, MayCall;
    InvSeated(order, s);
    assert s.turnPlayerId in s.hands;
    MayCallIsAccepted(order, s, p, q, target, tile, number);
    hide Seated;
    if MayCall(s, p, q, target, tile, number) {
      CallFollows(order, s, p, q, target, tile, number, now);
    }
  }

  lemma CallFollows(order: seq<int>, s: State, p: PlayerId, q: int, target: PlayerId, tile: nat, number: int, now: int)
    requires Inv(order, s) && MayCall(s, p, q, target, tile, number)
    ensures s.turnPlayerId in s.hands && GuessRule(s, p, q, target, tile, number, now, Guess(s, p, q, target, tile, number, now))
  {
    hide Inv, GuessAccepted, GuessMiss, GuessHit, TurnEnds, CallOpens, FindTile, Taken, StandsHidden;
    InvSeated(order, s);
    assert s.turnPlayerId in s.hands && HandOf(s, target) == s.hands[target];
    MayCallIsAccepted(order, s, p, q, target, tile, number);
    FoundStands(order, s, target, tile);
    hide Seated;
    var k: nat :| k < |s.hands[target]| && StandsHidden(s.hands[target], tile, k);
    if s.hands[target][k].face.number == number {
      RightFollows(order, s, p, q, target, tile, number, now, k);
      HitChanges(s, p, q, target, tile, number, now);
    } else {
      WrongFollows(order, s, p, q, target, tile, number, now);
      MissRecords(order, s, p, q, target, tile, number, now);
    }
  }

  lemma RevealAllOpens(hand: seq<Tile>)
    ensures SameTiles(hand, RevealAll(hand)) && AllOpen(RevealAll(hand))
  {
  }

  lemma ForfeitFollows(order: seq<int>, s: State, p: PlayerId, now: int)
    requires Inv(order, s)
    ensures ForfeitRule(s, p, now, Forfeit(s, p, now))
  {
    InvSeated(order, s);
    hide Inv;
    if s.phase != Finished && StillIn(s, p) {
      hide AtMostOneIn, Forfeit, ForfeitRule, NoDuplicates;
      if AtMostOneIn(s.(eliminated := s.eliminated + [p])) {
        ForfeitLast(s, p, now);
      } else if s.turnPlayerId == p {
        ForfeitTurn(s, p, now);
      } else {
        ForfeitOther(s, p, now);
      }
    }
  }

  lemma ForfeitLast(s: State, p: PlayerId, now: int)
    requires Seated(s) && s.phase != Finished && StillIn(s, p) && AtMostOneIn(s.(eliminated := s.eliminated + [p]))
    ensures ForfeitRule(s, p, now, Forfeit(s, p, now))
  {
    RevealAllOpens(s.hands[p]);
    ForfeitEnds(s, p, now);
    SurvivorsAtMostOne(s.(eliminated := s.eliminated + [p]));
    hide RevealAll, Survivors, Advance, AtMostOneIn, AllOpen, SameTiles, Ended, NoDuplicates, TurnPassed;
  }

  lemma ForfeitOther(s: State, p: PlayerId, now: int)
    requires Seated(s) && s.phase != Finished && StillIn(s, p) && s.turnPlayerId != p
    requires !AtMostOneIn(s.(eliminated := s.eliminated + [p]))
    ensures ForfeitRule(s, p, now, Forfeit(s, p, now))
  {
    RevealAllOpens(s.hands[p]);
    SurvivorsAtMostOne(s.(eliminated := s.eliminated + [p]));
    hide RevealAll, Survivors, Advance, AtMostOneIn, AllOpen, SameTiles, Ended, NoDuplicates, TurnPassed;
  }

  /** The state handed on when the player whose turn it is leaves. */
  function Leaving(s: State, p: PlayerId, now: int): State {
    Left(s, p).(drawn := None, version := s.version + 1,
                lastEvent := Some(Event(ForfeitEvent, p, None, None, None, false, now)))
  }

  lemma ForfeitIsAdvance(s: State, p: PlayerId, now: int)
    requires Seated(s) && s.phase != Finished && StillIn(s, p) && s.turnPlayerId == p
    requires !AtMostOneIn(s.(eliminated := s.eliminated + [p]))
    ensures Forfeit(s, p, now) == Advance(Leaving(s, p, now), now).(version := s.version + 1)
  {
    hide RevealAll, Survivors, Advance, AtMostOneIn, NoDuplicates, HandOf;
    SurvivorsAtMostOne(s.(eliminated := s.eliminated + [p]));
  }

  lemma ForfeitTurn(s: State, p: PlayerId, now: int)
    requires Seated(s) && s.phase != Finished && StillIn(s, p) && s.turnPlayerId == p
    requires !AtMostOneIn(s.(eliminated := s.eliminated + [p]))
    ensures ForfeitRule(s, p, now, Forfeit(s, p, now))
  {
    hide RevealAll, Survivors, Advance, AtMostOneIn, AllOpen, SameTiles, Ended, NoDuplicates, TurnPassed, Forfeit;
    var out := s.(eliminated := s.eliminated + [p]);
    var base := Leaving(s, p, now);
    RevealAllOpens(s.hands[p]);
    ForfeitIsAdvance(s, p, now);
    AdvanceOutcome(base, now);
    PassedFromOut(s, out, base, Advance(base, now), Forfeit(s, p, now), now);
  }

  lemma ForfeitEnds(s: State, p: PlayerId, now: int)
    requires Seated(s) && s.phase != Finished && StillIn(s, p) && AtMostOneIn(s.(eliminated := s.eliminated + [p]))
    ensures Ended(Forfeit(s, p, now))
  {
    var out := s.(eliminated := s.eliminated + [p]);
    SurvivorsAtMostOne(out);
    OneLeftWins(out, Survivors(s.playerOrder, out.eliminated));
    hide Survivors, RevealAll, Advance, NoDuplicates;
    assert forall q :: StillIn(Forfeit(s, p, now), q) <==> StillIn(out, q);
  }

  /** The tile the leaving player drew and their opened hand are nothing the passing speaks of. */
  lemma PassedFromOut(s: State, out: State, base: State, t: State, s': State, now: int)
    requires out == s.(eliminated := out.eliminated) && TurnPassed(base, t, now)
    requires base == out.(hands := base.hands, drawn := None, version := base.version, lastEvent := base.lastEvent)
    requires s' == t.(version := s'.version)
    ensures TurnPassed(out, s', now)
  {
    StillInFrame(t, s');
    hide AllOpen, Seat;
  }

  /** The game is played by the rules: in every state of the invariant each input does what they say, and nothing else. */
  lemma StepFollowsRules(order: seq<int>, s: State, i: TimedInput)
    requires Inv(order, s)
    ensures s.turnPlayerId in s.hands && Rules(s, i, Step(s, i))
  {
    hide Inv, Guess, Decide, Place, Expire, Forfeit, GuessRule, DecideRule, PlaceRule, ExpireRule, ForfeitRule;
    InvSeated(order, s);
    assert s.turnPlayerId in s.hands;
    hide Seated;
    match i.input
    case GuessInput(p, q, target, tile, number) => GuessFollows(order, s, p, q, target, tile, number, i.now);
    case DecideInput(p, q, decision) => DecideFollows(order, s, p, q, decision, i.now);
    case PlaceInput(p, q, index) => PlaceFollows(order, s, p, q, index, i.now);
    case ExpireInput => ExpireFollows(order, s, i.now);
    case ForfeitInput(p) => ForfeitFollows(order, s, p, i.now);
  }
}
