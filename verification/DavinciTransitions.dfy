/** Da Vinci Code: the five inputs, one by one: each is ignored or makes progress. */
module DavinciTransitions {
  import opened Wrappers
  import opened DavinciState
  import opened DavinciRules
  import opened DavinciInvariant
  import opened DavinciSteps

  /** The held tile, face up if the turn was lost, as `ConcludeTurn` settles it. */
  function Settled(s: State, faceUp: bool): State
    requires s.drawn.Some?
  {
    if faceUp then s.(drawn := Some(s.drawn.value.(revealed := true))) else s
  }

  lemma SettledTable(order: seq<int>, s: State, faceUp: bool)
    requires Inv(order, s) && s.drawn.Some? && (s.phase == Guessing || s.phase == Deciding)
    ensures Table(order, Settled(s, faceUp)) && Settled(s, faceUp).deck == s.deck
    ensures Ids(AllTiles(Settled(s, faceUp))) == Ids(AllTiles(s))
    ensures HiddenCount(AllTiles(Settled(s, faceUp))) == HiddenCount(AllTiles(s)) - (if faceUp then 1 else 0)
  {
    if faceUp {
      FlipDrawn(order, s);
    }
  }

  /** The table does not depend on the phase, nor on what `InvFrame` ignores. */
  lemma TableFrame(order: seq<int>, s: State, s': State)
    requires Table(order, s)
    requires s' == s.(phase := s'.phase, version := s'.version, turn := s'.turn, lastInputSeq := s'.lastInputSeq,
                      nextActionAt := s'.nextActionAt, lastEvent := s'.lastEvent)
    ensures Table(order, s') && AllTiles(s') == AllTiles(s)
  {
    assert InHands(s') == InHands(s);
    hide Genuine, Ordered, NoDuplicates;
  }

  lemma JokerInv(order: seq<int>, s: State, s1: State, s': State)
    requires Inv(order, s) && s.phase != Finished
    requires Table(order, s1) && Ids(AllTiles(s1)) == Ids(AllTiles(s))
    requires s1 == s.(drawn := s1.drawn) && s1.drawn.Some? && IsJoker(s1.drawn.value)
    requires s' == s1.(phase := Placing, nextActionAt := s'.nextActionAt)
    ensures Inv(order, s') && AllTiles(s') == AllTiles(s1)
  {
    TableFrame(order, s1, s');
    hide Table, AllTiles, Survivors, NoDuplicates, EliminatedIffWipedOut;
    assert |AllTiles(s')| == |Ids(AllTiles(s'))| == |AllTiles(s)|;
  }

  /** A held joker is not inserted yet: its owner is asked where to put it. */
  lemma ConcludeWithJoker(order: seq<int>, s: State, now: int)
    requires Inv(order, s) && (s.phase == Guessing || s.phase == Deciding)
    requires s.drawn.Some? && IsJoker(s.drawn.value)
    ensures Progress(order, s, ConcludeTurn(s, s.phase == Guessing, now), multiset{})
  {
    var s1 := Settled(s, s.phase == Guessing);
    SettledTable(order, s, s.phase == Guessing);
    var s' := ConcludeTurn(s, s.phase == Guessing, now);
    JokerInv(order, s, s1, s');
    InvSeated(order, s');
    hide Inv, Table, AllTiles, ConcludeTurn, Seated;
  }

  /** The held tile goes into slot `k` of the turn player's hand. */
  function Inserted(s: State, k: nat): State
    requires s.turnPlayerId in s.hands && s.drawn.Some? && k <= |s.hands[s.turnPlayerId]|
  {
    s.(hands := s.hands[s.turnPlayerId := InsertAt(s.hands[s.turnPlayerId], s.drawn.value, k)], drawn := None)
  }

  /** Putting the held tile in slot `k` and passing the turn. */
  lemma InsertAndAdvance(order: seq<int>, s: State, s1: State, k: nat, s': State, now: int)
    requires Inv(order, s) && s.phase != Finished && Table(order, s1) && s1.drawn.Some?
    requires s1.playerOrder == s.playerOrder && s1.turnPlayerId == s.turnPlayerId && s1.hands == s.hands
    requires s1.eliminated == s.eliminated && s1.winnerId == s.winnerId && s1.deck == s.deck && s.drawn.Some?
    requires Ids(AllTiles(s1)) == Ids(AllTiles(s)) && HiddenCount(AllTiles(s1)) <= HiddenCount(AllTiles(s))
    requires k <= |s1.hands[s1.turnPlayerId]|
    requires Ordered(InsertAt(s1.hands[s1.turnPlayerId], s1.drawn.value, k))
    requires s' == Advance(Inserted(s1, k), now)
    ensures s'.phase != Placing && Progress(order, s, s', multiset{})
  {
    var s2 := Inserted(s1, k);
    InsertReady(order, s, s1, k);
    hide Inserted, Inv, Table, AllTiles, Ordered, InsertAt, NoDuplicates, Progress, ReadyToAdvance;
    AdvanceProgress(order, s, s2, multiset{}, now);
  }

  lemma InsertReady(order: seq<int>, s: State, s1: State, k: nat)
    requires Inv(order, s) && s.phase != Finished && Table(order, s1) && s1.drawn.Some?
    requires s1.playerOrder == s.playerOrder && s1.turnPlayerId == s.turnPlayerId && s1.hands == s.hands
    requires s1.eliminated == s.eliminated && s1.winnerId == s.winnerId
    requires Ids(AllTiles(s1)) == Ids(AllTiles(s))
    requires k <= |s1.hands[s1.turnPlayerId]|
    requires Ordered(InsertAt(s1.hands[s1.turnPlayerId], s1.drawn.value, k))
    ensures var s2 := Inserted(s1, k);
      && ReadyToAdvance(order, s2) && s2.playerOrder == s.playerOrder && s2.deck == s1.deck
      && multiset(Ids(AllTiles(s2))) == multiset(Ids(AllTiles(s1)))
      && HiddenCount(AllTiles(s2)) == HiddenCount(AllTiles(s1))
  {
    var s2 := Inserted(s1, k);
    DrawnToHand(order, s1, k);
    hide Table, AllTiles, Ordered, InsertAt, NoDuplicates, TurnOk, DrawOk, EliminatedIffWipedOut;
    assert |multiset(Ids(AllTiles(s2)))| == |AllTiles(s2)|;
    assert |multiset(Ids(AllTiles(s1)))| == |AllTiles(s1)|;
    assert |Ids(AllTiles(s))| == |AllTiles(s)|;
    ReadyFrom(order, s, s2);
  }

  /** The slot the rule chooses keeps the turn player's hand ordered. */
  lemma SettledSlot(order: seq<int>, s: State)
    requires Table(order, s) && s.drawn.Some? && !IsJoker(s.drawn.value)
    ensures var hand := s.hands[s.turnPlayerId];
      Ordered(InsertAt(hand, s.drawn.value, InsertIndexOf(hand, s.drawn.value.face)))
  {
    DrawnIsNew(order, s, s.turnPlayerId);
    InsertKeepsOrder(s.hands[s.turnPlayerId], s.drawn.value);
  }

  lemma ConcludeInserts(s: State, faceUp: bool, now: int)
    requires Seated(s) && s.drawn.Some? && !IsJoker(s.drawn.value)
    ensures var s1 := Settled(s, faceUp);
      ConcludeTurn(s, faceUp, now)
      == Advance(Inserted(s1, InsertIndexOf(s1.hands[s1.turnPlayerId], s1.drawn.value.face)), now)
  {
    hide Advance;
  }

  lemma ConcludeByInserting(order: seq<int>, s: State, now: int)
    requires Inv(order, s) && (s.phase == Guessing || s.phase == Deciding)
    requires s.drawn.Some? && !IsJoker(s.drawn.value)
    ensures Progress(order, s, ConcludeTurn(s, s.phase == Guessing, now), multiset{})
  {
    var faceUp := s.phase == Guessing;
    var s1 := Settled(s, faceUp);
    SettledTable(order, s, faceUp);
    SettledSlot(order, s1);
    ConcludeInserts(s, faceUp, now);
    var k := InsertIndexOf(s1.hands[s1.turnPlayerId], s1.drawn.value.face);
    hide Inv, Table, AllTiles, Advance, Ordered, InsertAt, Inserted, ConcludeTurn, NoDuplicates, Progress;
    InsertAndAdvance(order, s, s1, k, ConcludeTurn(s, faceUp, now), now);
  }

  lemma ConcludeSound(order: seq<int>, s: State, now: int)
    requires Inv(order, s) && (s.phase == Guessing || s.phase == Deciding)
    ensures Progress(order, s, ConcludeTurn(s, s.phase == Guessing, now), multiset{})
  {
    if s.drawn.None? && s.phase == Guessing {
      ConcludeByRevealing(order, s, now);
    } else if s.drawn.None? {
      ConcludeEmptyHanded(order, s, now);
    } else if IsJoker(s.drawn.value) {
      ConcludeWithJoker(order, s, now);
    } else {
      ConcludeByInserting(order, s, now);
    }
  }

  lemma PlaceSound(order: seq<int>, s: State, index: int, now: int)
    requires Inv(order, s) && s.phase == Placing
    ensures var s' := PlaceDrawn(s, index, now);
      if 0 <= index <= |HandOf(s, s.turnPlayerId)|
      then s'.phase != Placing && Progress(order, s, s', multiset{})
      else s' == s
  {
    if 0 <= index <= |HandOf(s, s.turnPlayerId)| {
      InsertJokerKeepsOrder(s.hands[s.turnPlayerId], s.drawn.value, index);
      var s' := PlaceDrawn(s, index, now);
      assert s' == Advance(Inserted(s, index), now) by { hide Advance; }
      hide Inv, Table, AllTiles, Advance, Ordered, InsertAt, Inserted, PlaceDrawn, NoDuplicates, Progress;
      InsertAndAdvance(order, s, s, index, s', now);
    }
  }

  // ---------------------------------------------------------------- the inputs

  /** An input is either ignored, leaving the very same state, or makes progress and raises the version by one. */
  ghost predicate IgnoredOrProgress(order: seq<int>, s: State, s': State, lost: multiset<nat>)
    requires Seated(s)
  {
    || (s' == s && lost == multiset{})
    || (s'.version == s.version + 1 && Progress(order, s, s', lost))
  }

  /** Stamping a version and an event on a successor changes nothing the invariant sees. */
  lemma ProgressStamped(order: seq<int>, s0: State, s: State, t: State, s': State, lost: multiset<nat>)
    requires Inv(order, s0)
    requires s == s0.(lastInputSeq := s.lastInputSeq) && Seated(s)
    requires Progress(order, s, t, lost)
    requires s' == t.(version := s'.version, lastEvent := s'.lastEvent)
    ensures Progress(order, s0, s', lost)
  {
    InvFrame(order, s0, s);
    InvFrame(order, t, s');
    hide Inv, AllTiles, Measure;
  }

  lemma DecideSound(order: seq<int>, s: State, p: PlayerId, q: int, d: Decision, now: int)
    requires Inv(order, s)
    ensures IgnoredOrProgress(order, s, Decide(s, p, q, d, now), multiset{})
  {
    if s.phase == Deciding && s.turnPlayerId == p && q > At(s.lastInputSeq, p, -1) {
      var s1 := s.(lastInputSeq := s.lastInputSeq[p := q]);
      InvFrame(order, s, s1);
      if d == Stop {
        ConcludeSound(order, s1, now);
        ProgressStamped(order, s, s1, ConcludeTurn(s1, false, now), Decide(s, p, q, d, now), multiset{});
      } else {
        ContinueSound(order, s, p, q, now);
      }
      hide Inv, ConcludeTurn, Measure, AllTiles;
    }
  }

  lemma ContinueSound(order: seq<int>, s: State, p: PlayerId, q: int, now: int)
    requires Inv(order, s) && s.phase == Deciding && s.turnPlayerId == p && q > At(s.lastInputSeq, p, -1)
    ensures Progress(order, s, Decide(s, p, q, Continue, now), multiset{})
  {
    var s' := Decide(s, p, q, Continue, now);
    TableFrame(order, s, s');
    hide Table, AllTiles, Survivors;
  }

  lemma PlaceInputSound(order: seq<int>, s: State, p: PlayerId, q: int, index: int, now: int)
    requires Inv(order, s)
    ensures IgnoredOrProgress(order, s, Place(s, p, q, index, now), multiset{})
  {
    if s.phase == Placing && s.turnPlayerId == p && q > At(s.lastInputSeq, p, -1) {
      var s1 := s.(lastInputSeq := s.lastInputSeq[p := q]);
      InvFrame(order, s, s1);
      PlaceSound(order, s1, index, now);
      if 0 <= index <= |HandOf(s1, p)| {
        ProgressStamped(order, s, s1, PlaceDrawn(s1, index, now), Place(s, p, q, index, now), multiset{});
      }
      hide Inv, PlaceDrawn, Measure, AllTiles;
    }
  }

  lemma ExpireSound(order: seq<int>, s: State, now: int)
    requires Inv(order, s)
    ensures if s.phase == Finished then Expire(s, now) == s
            else Expire(s, now).version == s.version + 1 && Progress(order, s, Expire(s, now), multiset{})
  {
    if s.phase != Finished {
      if s.phase == Placing {
        PlaceSound(order, s, |HandOf(s, s.turnPlayerId)|, now);
      } else {
        ConcludeSound(order, s, now);
      }
      ProgressStamped(order, s, s, TimedOut(s, now), Expire(s, now), multiset{});
      hide Inv, ConcludeTurn, PlaceDrawn, Measure, AllTiles;
    }
  }

  // ---------------------------------------------------------------- guessing

  lemma TableMarks(order: seq<int>, s: State, s': State)
    requires Table(order, s)
    requires s' == s.(eliminated := s'.eliminated, hits := s'.hits)
    requires NoDuplicates(s'.eliminated) && forall p | p in s'.eliminated :: p in s.playerOrder
    requires SumHits(s.playerOrder, s'.hits) + HiddenCount(InHands(s)) <= |InHands(s)|
    ensures Table(order, s') && AllTiles(s') == AllTiles(s)
  {
    assert InHands(s') == InHands(s);
    hide Genuine, Ordered, NoDuplicates, HiddenTiles;
  }

  lemma OutIffWipedOut(s: State, target: PlayerId, hand: seq<Tile>)
    requires Seated(s) && EliminatedIffWipedOut(s.playerOrder, s.hands, s.eliminated) && target in s.playerOrder
    requires target !in s.eliminated
    ensures EliminatedIffWipedOut(s.playerOrder, s.hands[target := hand], OutAfterReveal(s.eliminated, target, hand))
  {
    hide NoDuplicates;
  }

  /** A correct guess: one hidden tile of the target goes up, and with it the guesser's hits. */
  lemma CorrectGuessTable(order: seq<int>, s: State, p: PlayerId, target: PlayerId, tile: Tile)
    requires Inv(order, s) && p in s.playerOrder && target in s.playerOrder && target !in s.eliminated
    requires tile in s.hands[target] && !tile.revealed
    ensures var t := Hit(s, p, target, tile.id);
      && Table(order, t)
      && Ids(AllTiles(t)) == Ids(AllTiles(s))
      && HiddenCount(AllTiles(t)) == HiddenCount(AllTiles(s)) - 1
      && EliminatedIffWipedOut(t.playerOrder, t.hands, t.eliminated)
  {
    hide Genuine, Ordered, Reveal, HiddenTiles, SumHits, AllTiles, EliminatedIffWipedOut, Survivors, Row;
    CorrectGuessHand(order, s, target, tile);
    var hand := Reveal(s.hands[target], tile.id);
    OutIffWipedOut(s, target, hand);
    SumHitsUpdate(s.playerOrder, s.hits, p, At(s.hits, p, 0) + 1);
    assert NoDuplicates(OutAfterReveal(s.eliminated, target, hand));
    hide NoDuplicates;
    TableMarks(order, s.(hands := s.hands[target := hand]), Hit(s, p, target, tile.id));
  }

  lemma CorrectGuessHand(order: seq<int>, s: State, target: PlayerId, tile: Tile)
    requires Inv(order, s) && target in s.playerOrder && tile in s.hands[target] && !tile.revealed
    ensures var s1 := s.(hands := s.hands[target := Reveal(s.hands[target], tile.id)]);
      && Table(order, s1)
      && Ids(AllTiles(s1)) == Ids(AllTiles(s))
      && HiddenCount(AllTiles(s1)) == HiddenCount(AllTiles(s)) - 1
      && HiddenCount(InHands(s1)) == HiddenCount(InHands(s)) - 1
      && |InHands(s1)| == |InHands(s)|
  {
    hide Reveal, NoDuplicates, HiddenTiles, AllTiles, EliminatedIffWipedOut, Survivors;
    HandGenuine(order, s, target);
    RevealOne(order, s.hands[target], tile);
    ChangeHand(order, s, target, Reveal(s.hands[target], tile.id));
  }

  lemma TableWinner(order: seq<int>, s: State, s': State)
    requires Table(order, s)
    requires s' == s.(phase := s'.phase, version := s'.version, lastInputSeq := s'.lastInputSeq,
                      nextActionAt := s'.nextActionAt, lastEvent := s'.lastEvent, winnerId := s'.winnerId)
    ensures Table(order, s') && AllTiles(s') == AllTiles(s)
  {
    assert InHands(s') == InHands(s);
    hide Genuine, Ordered, NoDuplicates;
  }

  /** Tiles went up and perhaps somebody went out, but no turn was passed. */
  lemma RevealedInPlace(order: seq<int>, s: State, t: State, s': State)
    requires Inv(order, s) && Table(order, t)
    requires t.playerOrder == s.playerOrder && t.drawn == s.drawn && t.deck == s.deck
    requires Ids(AllTiles(t)) == Ids(AllTiles(s)) && HiddenCount(AllTiles(t)) < HiddenCount(AllTiles(s))
    requires |t.eliminated| >= |s.eliminated| && EliminatedIffWipedOut(t.playerOrder, t.hands, t.eliminated)
    requires s' == t.(phase := s'.phase, version := s'.version, lastInputSeq := s'.lastInputSeq,
                      nextActionAt := s'.nextActionAt, lastEvent := s'.lastEvent, winnerId := s'.winnerId)
    requires TurnOk(s'.phase, Survivors(t.playerOrder, t.eliminated), t.turnPlayerId, s'.winnerId)
    requires DrawOk(s'.phase, t.drawn, t.deck) && Rank(s'.phase) <= Rank(s.phase) + 1
    ensures Progress(order, s, s', multiset{})
  {
    assert Seated(s) && Seated(t);
    hide Table, AllTiles, EliminatedIffWipedOut, NoDuplicates, Survivors, TurnOk, DrawOk, HiddenCount, Rank;
    TableWinner(order, t, s');
    assert |Ids(AllTiles(s'))| == |AllTiles(s')| && |Ids(AllTiles(s))| == |AllTiles(s)|;
    assert Seated(s');
    hide Seated;
  }

  /** The phase and winner after somebody may have gone out. */
  predicate SettlesGame(s: State, alive: seq<PlayerId>, goOn: Phase, s': State) {
    if |alive| <= 1 then s'.phase == Finished && (alive != [] ==> s'.winnerId == Some(alive[0]))
    else s'.phase == goOn && s'.winnerId == s.winnerId
  }

  lemma OutLeavesSomebody(s: State, eliminated: seq<PlayerId>, target: PlayerId)
    requires Seated(s) && |Survivors(s.playerOrder, s.eliminated)| >= 2
    requires target in s.playerOrder && target !in s.eliminated
    requires eliminated == s.eliminated || eliminated == s.eliminated + [target]
    ensures |Survivors(s.playerOrder, eliminated)| >= 1
  {
    hide Survivors;
    SurvivorsShrink(s.playerOrder, s.eliminated, target);
  }

  lemma OutTurn(s: State, eliminated: seq<PlayerId>, target: PlayerId, goOn: Phase, s': State)
    requires Seated(s) && s.phase != Finished && goOn != Finished && target in s.playerOrder && target !in s.eliminated
    requires TurnOk(s.phase, Survivors(s.playerOrder, s.eliminated), s.turnPlayerId, s.winnerId)
    requires eliminated == s.eliminated || eliminated == s.eliminated + [target]
    requires SettlesGame(s, Survivors(s.playerOrder, eliminated), goOn, s')
    requires |Survivors(s.playerOrder, eliminated)| >= 2 ==> target != s.turnPlayerId
    ensures TurnOk(s'.phase, Survivors(s.playerOrder, eliminated), s.turnPlayerId, s'.winnerId)
  {
    OutLeavesSomebody(s, eliminated, target);
    hide Survivors, Seated;
    var alive := Survivors(s.playerOrder, eliminated);
    if |alive| == 1 {
      assert alive == [alive[0]];
    } else {
      assert s.turnPlayerId in Survivors(s.playerOrder, s.eliminated);
      assert s.turnPlayerId !in eliminated;
    }
  }

  lemma OutSettlesGame(order: seq<int>, s: State, eliminated: seq<PlayerId>, target: PlayerId, goOn: Phase, s': State)
    requires Inv(order, s) && s.phase != Finished && target in s.playerOrder && target !in s.eliminated
    requires eliminated == s.eliminated || eliminated == s.eliminated + [target]
    requires goOn == s.phase || (goOn == Deciding && s.phase == Guessing)
    requires SettlesGame(s, Survivors(s.playerOrder, eliminated), goOn, s')
    requires |Survivors(s.playerOrder, eliminated)| >= 2 ==> target != s.turnPlayerId
    ensures TurnOk(s'.phase, Survivors(s.playerOrder, eliminated), s.turnPlayerId, s'.winnerId)
    ensures DrawOk(s'.phase, s.drawn, s.deck) && Rank(s'.phase) <= Rank(s.phase) + 1
  {
    hide Table, EliminatedIffWipedOut, AllTiles, Seated;
    InvSeated(order, s);
    OutTurn(s, eliminated, target, goOn, s');
    hide TurnOk, Survivors;
  }

  lemma CorrectGuessSound(order: seq<int>, s: State, p: PlayerId, target: PlayerId, tile: Tile, s': State)
    requires Inv(order, s) && s.phase == Guessing && p == s.turnPlayerId && target != p
    requires target in s.playerOrder && target !in s.eliminated
    requires tile in s.hands[target] && !tile.revealed
    requires var t := Hit(s, p, target, tile.id);
      && SettlesGame(s, Survivors(s.playerOrder, t.eliminated), Deciding, s')
      && s' == t.(phase := s'.phase, version := s'.version, lastInputSeq := s'.lastInputSeq,
                  nextActionAt := s'.nextActionAt, lastEvent := s'.lastEvent, winnerId := s'.winnerId)
    ensures Progress(order, s, s', multiset{})
  {
    HitShape(s, p, target, tile.id);
    hide Inv, Table, AllTiles, EliminatedIffWipedOut, Hit, NoDuplicates, Survivors, HiddenTiles, Ids, Progress, SettlesGame;
    var t := Hit(s, p, target, tile.id);
    CorrectGuessTable(order, s, p, target, tile);
    OutSettlesGame(order, s, t.eliminated, target, Deciding, s');
    RevealedInPlace(order, s, t, s');
  }

  lemma HitShape(s: State, p: PlayerId, target: PlayerId, tileId: nat)
    requires target in s.hands
    ensures var t := Hit(s, p, target, tileId);
      && t == s.(hands := t.hands, eliminated := t.eliminated, hits := t.hits)
      && (t.eliminated == s.eliminated || t.eliminated == s.eliminated + [target])
      && |t.eliminated| >= |s.eliminated|
  {
  }

  lemma GuessHitSound(order: seq<int>, s: State, p: PlayerId, q: int, target: PlayerId, tileId: nat, number: int, now: int)
    requires Inv(order, s) && GuessAccepted(s, p, q, target, tileId, number)
    requires FindTile(HandOf(s, target), tileId).value.face.number == number
    ensures Progress(order, s, GuessHit(s, p, q, target, tileId, number, now), multiset{})
  {
    InvSeated(order, s);
    var tile := FindTile(HandOf(s, target), tileId).value;
    assert HandOf(s, target) == s.hands[target] && tile.id == tileId;
    GuessHitShape(s, p, q, target, tileId, number, now);
    hide FindTile, Progress, NoDuplicates, AllTiles, Survivors, Inv, GuessHit, Hit, SettlesGame;
    CorrectGuessSound(order, s, p, target, tile, GuessHit(s, p, q, target, tileId, number, now));
  }

  lemma GuessHitShape(s: State, p: PlayerId, q: int, target: PlayerId, tileId: nat, number: int, now: int)
    requires target in s.hands
    ensures var t := Hit(s, p, target, tileId); var s' := GuessHit(s, p, q, target, tileId, number, now);
      && SettlesGame(s, Survivors(s.playerOrder, t.eliminated), Deciding, s')
      && s' == t.(phase := s'.phase, version := s'.version, lastInputSeq := s'.lastInputSeq,
                  nextActionAt := s'.nextActionAt, lastEvent := s'.lastEvent, winnerId := s'.winnerId)
  {
    hide Reveal, HiddenTiles, Survivors;
  }

  lemma GuessMissSound(order: seq<int>, s: State, p: PlayerId, q: int, target: PlayerId, tileId: nat, number: int, now: int)
    requires Inv(order, s) && GuessAccepted(s, p, q, target, tileId, number)
    ensures Progress(order, s, GuessMiss(s, p, q, target, tileId, number, now), multiset{})
  {
    hide ConcludeTurn, FindTile, Measure, AllTiles, Progress, Inv;
    var s1 := s.(lastInputSeq := s.lastInputSeq[p := q]);
    InvFrame(order, s, s1);
    ConcludeSound(order, s1, now);
    InvSeated(order, s1);
    ProgressStamped(order, s, s1, ConcludeTurn(s1, true, now), GuessMiss(s, p, q, target, tileId, number, now), multiset{});
  }

  lemma GuessSound(order: seq<int>, s: State, p: PlayerId, q: int, target: PlayerId, tileId: nat, number: int, now: int)
    requires Inv(order, s)
    ensures IgnoredOrProgress(order, s, Guess(s, p, q, target, tileId, number, now), multiset{})
  {
    hide ConcludeTurn, Reveal, HiddenTiles, Measure, AllTiles, Progress;
    if GuessAccepted(s, p, q, target, tileId, number) {
      if FindTile(HandOf(s, target), tileId).value.face.number == number {
        GuessHitSound(order, s, p, q, target, tileId, number, now);
      } else {
        GuessMissSound(order, s, p, q, target, tileId, number, now);
      }
    }
  }

  // ---------------------------------------------------------------- leaving

  lemma LeftTable(order: seq<int>, s: State, p: PlayerId)
    requires Inv(order, s) && p in s.playerOrder && p !in s.eliminated
    ensures var s' := Left(s, p);
      && Table(order, s')
      && Ids(AllTiles(s')) == Ids(AllTiles(s))
      && HiddenCount(AllTiles(s')) < HiddenCount(AllTiles(s))
      && HiddenCount(s'.hands[p]) == 0
      && EliminatedIffWipedOut(s'.playerOrder, s'.hands, s'.eliminated)
  {
    hide Genuine, Ordered, RevealAll, SumHits, AllTiles, Survivors, Row, EliminatedIffWipedOut;
    var hand := RevealAll(s.hands[p]);
    RevealEvery(s.hands[p]);
    assert HiddenCount(s.hands[p]) > 0 by { NotWipedOut(order, s, p); }
    ChangeHand(order, s, p, hand);
    OutIffWipedOut(s, p, hand);
    assert NoDuplicates(s.eliminated + [p]);
    hide NoDuplicates, HiddenTiles;
    TableMarks(order, s.(hands := s.hands[p := hand]), Left(s, p));
  }

  lemma NotWipedOut(order: seq<int>, s: State, p: PlayerId)
    requires Inv(order, s) && p in s.playerOrder && p !in s.eliminated
    ensures HiddenCount(s.hands[p]) > 0
  {
    hide Genuine, Ordered, NoDuplicates, AllTiles;
  }

  lemma DropDrawn(order: seq<int>, s: State)
    requires Table(order, s)
    ensures var s' := s.(drawn := None);
      && Table(order, s')
      && multiset(Ids(AllTiles(s'))) + multiset(Ids(Held(s.drawn))) == multiset(Ids(AllTiles(s)))
      && HiddenCount(AllTiles(s')) <= HiddenCount(AllTiles(s))
      && |AllTiles(s')| + 1 >= |AllTiles(s)|
  {
    var s' := s.(drawn := None);
    assert InHands(s') == InHands(s);
    HiddenAllTiles(s);
    HiddenAllTiles(s');
    assert Ids(Held(None)) == [] && HiddenTiles(Held(None)) == [];
    assert forall t | t in AllTiles(s') :: t in AllTiles(s);
    assert forall id :: multiset(Ids(AllTiles(s')))[id] <= multiset(Ids(AllTiles(s)))[id];
    hide Ordered, NoDuplicates, HiddenTiles, InHands, SumHits;
  }

  /** A game that goes on, or ends, without the turn moving. */
  lemma LeftInPlace(order: seq<int>, s: State, p: PlayerId, s': State)
    requires Inv(order, s) && s.phase != Finished && p in s.playerOrder && p !in s.eliminated
    requires var t := Left(s, p); var alive := Survivors(s.playerOrder, t.eliminated);
      && (|alive| <= 1 || s.turnPlayerId != p)
      && SettlesGame(s, alive, s.phase, s')
      && s' == t.(phase := s'.phase, version := s'.version, lastEvent := s'.lastEvent,
                  nextActionAt := s'.nextActionAt, winnerId := s'.winnerId)
    ensures Progress(order, s, s', multiset{})
  {
    hide Inv, Table, AllTiles, EliminatedIffWipedOut, NoDuplicates, Survivors, HiddenTiles, Ids, Progress, SettlesGame, RevealAll;
    var t := Left(s, p);
    LeftTable(order, s, p);
    OutSettlesGame(order, s, t.eliminated, p, s.phase, s');
    RevealedInPlace(order, s, t, s');
  }

  lemma LeftReady(order: seq<int>, s: State, s1: State)
    requires Inv(order, s) && s.phase != Finished
    requires s1 == Left(s, s.turnPlayerId).(drawn := None)
    requires |Survivors(s.playerOrder, s.eliminated + [s.turnPlayerId])| >= 2
    ensures ReadyToAdvance(order, s1) && s1.playerOrder == s.playerOrder && s1.deck == s.deck
    ensures multiset(Ids(AllTiles(s1))) + multiset(Ids(Held(s.drawn))) == multiset(Ids(AllTiles(s)))
    ensures HiddenCount(AllTiles(s1)) < HiddenCount(AllTiles(s))
  {
    hide Table, AllTiles, NoDuplicates, Survivors, HiddenTiles, Ids, RevealAll, DrawOk;
    InvSeated(order, s);
    var t := Left(s, s.turnPlayerId);
    LeftTable(order, s, s.turnPlayerId);
    DropDrawn(order, t);
    SameLength(AllTiles(s), AllTiles(t));
    hide Inv;
  }

  lemma SameLength(a: seq<Tile>, b: seq<Tile>)
    requires Ids(a) == Ids(b)
    ensures |a| == |b|
  {
    assert |Ids(a)| == |Ids(b)|;
  }

  lemma LeftOnTurn(order: seq<int>, s: State, now: int)
    requires Inv(order, s) && s.phase != Finished
    requires |Survivors(s.playerOrder, s.eliminated + [s.turnPlayerId])| >= 2
    ensures Progress(order, s, Advance(Left(s, s.turnPlayerId).(drawn := None), now), multiset(Ids(Held(s.drawn))))
  {
    var s1 := Left(s, s.turnPlayerId).(drawn := None);
    LeftReady(order, s, s1);
    hide Table, AllTiles, NoDuplicates, Left, Survivors, ReadyToAdvance, HiddenCount, Progress, Advance;
    AdvanceProgress(order, s, s1, multiset(Ids(Held(s.drawn))), now);
  }

  /** What leaves the table: the held tile of a turn player who forfeits while the game goes on. */
  ghost function Lost(s: State, i: Input): multiset<nat> {
    if && i.ForfeitInput? && s.phase != Finished
       && i.playerId in s.playerOrder && i.playerId !in s.eliminated && i.playerId == s.turnPlayerId
       && |Survivors(s.playerOrder, s.eliminated + [i.playerId])| >= 2
    then multiset(Ids(Held(s.drawn)))
    else multiset{}
  }

  lemma ForfeitSound(order: seq<int>, s: State, p: PlayerId, now: int)
    requires Inv(order, s)
    ensures IgnoredOrProgress(order, s, Forfeit(s, p, now), Lost(s, ForfeitInput(p)))
  {
    if s.phase != Finished && p in s.playerOrder && p !in s.eliminated {
      ForfeitAccepted(order, s, p, now);
      hide Inv, Left, Progress, AllTiles, Advance, Survivors;
    }
  }

  lemma ForfeitAccepted(order: seq<int>, s: State, p: PlayerId, now: int)
    requires Inv(order, s) && s.phase != Finished && p in s.playerOrder && p !in s.eliminated
    ensures Progress(order, s, Forfeit(s, p, now), Lost(s, ForfeitInput(p)))
  {
    hide Inv, Left, Progress, AllTiles, Advance, Survivors, Forfeit;
    if |Survivors(s.playerOrder, s.eliminated + [p])| <= 1 || s.turnPlayerId != p {
      ForfeitInPlace(order, s, p, now);
    } else {
      ForfeitOnTurn(order, s, now);
    }
  }

  lemma ForfeitInPlace(order: seq<int>, s: State, p: PlayerId, now: int)
    requires Inv(order, s) && s.phase != Finished && p in s.playerOrder && p !in s.eliminated
    requires |Survivors(s.playerOrder, s.eliminated + [p])| <= 1 || s.turnPlayerId != p
    ensures Progress(order, s, Forfeit(s, p, now), multiset{})
  {
    hide Inv, RevealAll, Progress, AllTiles, Advance, Survivors;
    LeftInPlace(order, s, p, Forfeit(s, p, now));
  }

  lemma ForfeitOnTurn(order: seq<int>, s: State, now: int)
    requires Inv(order, s) && s.phase != Finished && s.turnPlayerId in s.playerOrder && s.turnPlayerId !in s.eliminated
    requires |Survivors(s.playerOrder, s.eliminated + [s.turnPlayerId])| >= 2
    ensures Progress(order, s, Forfeit(s, s.turnPlayerId, now), multiset(Ids(Held(s.drawn))))
  {
    InvSeated(order, s);
    ForfeitOnTurnIs(s, s.turnPlayerId, now);
    LeftOnTurn(order, s, now);
    hide Inv, Left, Progress, AllTiles, Advance, Measure, Survivors, Forfeit, Seated;
    var t := Advance(Left(s, s.turnPlayerId).(drawn := None), now);
    ProgressStamped(order, s, s, t, Forfeit(s, s.turnPlayerId, now), multiset(Ids(Held(s.drawn))));
  }

  /** The version and event stamped before the turn is passed are the ones found after it. */
  lemma ForfeitOnTurnIs(s: State, p: PlayerId, now: int)
    requires Seated(s) && s.phase != Finished && p == s.turnPlayerId && p !in s.eliminated
    requires |Survivors(s.playerOrder, s.eliminated + [p])| >= 2
    ensures var t := Advance(Left(s, p).(drawn := None), now); var s' := Forfeit(s, p, now);
      s' == t.(version := s.version + 1, lastEvent := s'.lastEvent)
  {
    hide Survivors, SeekSurvivor, HiddenTiles, RevealAll;
  }
}
