/** Da Vinci Code: the deal in plain terms, and whole games played by the rules from it, points included. */
module DavinciGames {
  import opened Wrappers
  import opened DavinciState
  import opened DavinciRules
  import opened DavinciInvariant
  import opened DavinciSteps
  import opened DavinciRuns
  import opened DavinciDeal
  import opened DavinciOutcomes

  // ---------------------------------------------------------------- the deal

  /** Left to right in the order they were shuffled into. */
  ghost predicate Rising(tiles: seq<Tile>) {
    forall i, j | 0 <= i < j < |tiles| :: tiles[i].id < tiles[j].id
  }

  ghost predicate AllBefore(a: seq<Tile>, b: seq<Tile>) {
    forall t, u | t in a && u in b :: t.id < u.id
  }

  /** Ascending, black before white on equal numbers. */
  ghost predicate Ascending(hand: seq<Tile>) {
    forall i, j | 0 <= i < j < |hand| ::
      || hand[i].face.number < hand[j].face.number
      || (hand[i].face.number == hand[j].face.number && hand[i].face.color == Black && hand[j].face.color == White)
  }

  /**
   * Four players get three tiles, fewer get four: the first numbered ones as they
   * were shuffled, seat after seat, each hand in ascending order and hidden.
   */
  ghost predicate HandsDealt(players: seq<PlayerId>, order: seq<int>, hands: map<PlayerId, seq<Tile>>) {
    && hands.Keys == (set p | p in players)
    && (forall p | p in players :: HandDealt(order, hands[p], if |players| == 4 then 3 else 4))
    && (forall i, j | 0 <= i < j < |players| :: AllBefore(hands[players[i]], hands[players[j]]))
  }

  ghost predicate HandDealt(order: seq<int>, hand: seq<Tile>, size: nat) {
    |hand| == size && Ascending(hand) && forall t | t in hand :: IsFrom(order, t) && !t.revealed && t.face.number != -1
  }

  /** The other tiles in their shuffled order; only jokers were passed over for the hands. */
  ghost predicate RestDealt(players: seq<PlayerId>, order: seq<int>, hands: map<PlayerId, seq<Tile>>, rest: seq<Tile>)
    requires hands.Keys == (set p | p in players)
  {
    && Rising(rest) && |rest| == 26 - |players| * (if |players| == 4 then 3 else 4)
    && (forall t | t in rest :: IsFrom(order, t) && !t.revealed)
    && (forall p, t, u | p in players && t in hands[p] && u in rest :: t.id != u.id && (u.face.number != -1 ==> t.id < u.id))
  }

  /** The other tiles are the deck, and its first one is drawn for the first player's turn. */
  ghost predicate DealRule(players: seq<PlayerId>, order: seq<int>, now: int, s: State) {
    && s.version == 1 && s.phase == Guessing && s.turn == 1 && s.nextActionAt == now + 30_000
    && s.playerOrder == players && players != [] && s.turnPlayerId == players[0]
    && s.eliminated == [] && s.winnerId.None? && s.lastEvent.None?
    && s.hits.Keys == s.lastInputSeq.Keys == (set p | p in players)
    && (forall p | p in players :: s.hits[p] == 0 && s.lastInputSeq[p] == -1)
    && HandsDealt(players, order, s.hands)
    && s.drawn.Some? && RestDealt(players, order, s.hands, [s.drawn.value] + s.deck)
  }

  /** The tile shuffled to this place: of 0 to 12 the black ones and of 13 to 25 the white ones, a joker last of each. */
  predicate IsFrom(order: seq<int>, t: Tile) {
    && t.id < |order| && 0 <= order[t.id] < 26
    && t.face == if order[t.id] < 13 then Face(Black, if order[t.id] == 12 then -1 else order[t.id])
                 else Face(White, if order[t.id] == 25 then -1 else order[t.id] - 13)
  }

  lemma RisingTail(tiles: seq<Tile>)
    requires Rising(tiles) && tiles != []
    ensures Rising(tiles[1..]) && forall t | t in tiles[1..] :: tiles[0].id < t.id
  {
  }

  lemma RisingCons(t: Tile, rest: seq<Tile>)
    requires Rising(rest) && forall u | u in rest :: t.id < u.id
    ensures Rising([t] + rest)
  {
  }

  lemma {:induction false} NonJokersRise(tiles: seq<Tile>)
    requires Rising(tiles)
    ensures Rising(NonJokers(tiles))
  {
    assert Rising([]);
    hide Rising;
    if tiles != [] {
      RisingTail(tiles);
      NonJokersRise(tiles[1..]);
      if !IsJoker(tiles[0]) { RisingCons(tiles[0], NonJokers(tiles[1..])); }
    }
  }

  lemma {:induction false} WithoutRises(tiles: seq<Tile>, ids: set<nat>)
    requires Rising(tiles)
    ensures Rising(Without(tiles, ids))
  {
    assert Rising([]);
    hide Rising;
    if tiles != [] {
      RisingTail(tiles);
      WithoutRises(tiles[1..], ids);
      if tiles[0].id !in ids { RisingCons(tiles[0], Without(tiles[1..], ids)); }
    }
  }

  lemma {:induction false} SortedKeeps(hand: seq<Tile>)
    ensures forall t :: t in Sorted(hand) <==> t in hand
  {
    if hand != [] {
      SortedKeeps(hand[1..]);
      var rest := Sorted(hand[1..]);
      var k := InsertIndexOf(rest, hand[0].face);
      assert rest == rest[..k] + rest[k..];
      assert hand == [hand[0]] + hand[1..];
    }
  }

  lemma SlicesRise(dealt: seq<Tile>, size: nat)
    requires Rising(dealt)
    ensures Rising(Rest(dealt, size)) && AllBefore(Slice(dealt, 0, size), Rest(dealt, size))
    ensures forall t | t in Rest(dealt, size) :: t in dealt
  {
  }

  lemma {:induction false} HandsRise(players: seq<PlayerId>, dealt: seq<Tile>, size: nat)
    requires Rising(dealt) && NoDuplicates(players)
    ensures var hands := DealHands(players, dealt, size);
      && (forall p, t | p in players && t in hands[p] :: t in dealt)
      && (forall i, j | 0 <= i < j < |players| :: AllBefore(hands[players[i]], hands[players[j]]))
  {
    if players != [] {
      var rest, later := players[1..], Rest(dealt, size);
      var hands, tail := DealHands(players, dealt, size), DealHands(rest, later, size);
      SlicesRise(dealt, size);
      HandsRise(rest, later, size);
      SortedKeeps(Slice(dealt, 0, size));
      FirstHand(players, dealt, size);
      hide DealHands, Slice, Rest, Sorted, Rising;
      forall i, j | 0 <= i < j < |players| ensures AllBefore(hands[players[i]], hands[players[j]]) {
        assert players[j] == rest[j - 1];
        if i > 0 { assert players[i] == rest[i - 1]; }
      }
      forall p, t | p in players && t in hands[p] ensures t in dealt {
        assert p == players[0] || p in rest;
      }
    }
  }

  lemma FirstHand(players: seq<PlayerId>, dealt: seq<Tile>, size: nat)
    requires players != [] && NoDuplicates(players)
    ensures var hands := DealHands(players, dealt, size); var tail := DealHands(players[1..], Rest(dealt, size), size);
      && hands[players[0]] == Sorted(Slice(dealt, 0, size)) && players[0] !in players[1..]
      && forall p | p in players[1..] :: p in hands && hands[p] == tail[p]
    ensures forall t | t in Slice(dealt, 0, size) :: t in dealt
  {
  }

  lemma AscendingOf(hand: seq<Tile>)
    requires Ordered(hand) && forall t | t in hand :: t.face.number != -1
    ensures Ascending(hand)
  {
    forall i, j | 0 <= i < j < |hand|
      ensures hand[i].face.number < hand[j].face.number
              || (hand[i].face.number == hand[j].face.number && hand[i].face.color == Black && hand[j].face.color == White)
    {
      assert Before(hand[i], hand[j]);
    }
  }

  lemma FromShuffle(order: seq<int>, t: Tile)
    requires IsPermutation(order) && t in Shuffled(order)
    ensures IsFrom(order, t) && !t.revealed
  {
  }

  lemma PrefixIsBefore(tiles: seq<Tile>, n: nat, t: Tile, u: Tile)
    requires Rising(tiles) && n <= |tiles| && t in tiles[..n] && u in tiles && u !in tiles[..n]
    ensures t.id < u.id
  {
    var i :| 0 <= i < |tiles| && tiles[i] == u;
    var j :| 0 <= j < n && tiles[..n][j] == t;
    assert forall q | 0 <= q < n :: tiles[..n][q] == tiles[q];
  }

  /** Numbered tiles left over were shuffled behind every tile dealt. */
  lemma LeftBehind(all: seq<Tile>, n: nat, t: Tile, u: Tile)
    requires Rising(all) && n <= |NonJokers(all)| && t in NonJokers(all)[..n]
    requires u in all && !IsJoker(u) && u.id !in (set x | x in NonJokers(all)[..n] :: x.id)
    ensures t.id < u.id
  {
    NonJokersRise(all);
    var numbered := NonJokers(all);
    assert u in numbered;
    hide NonJokers, Rising;
    var ids := set x | x in numbered[..n] :: x.id;
    assert forall x | x in numbered[..n] :: x.id in ids;
    PrefixIsBefore(numbered, n, t, u);
  }

  lemma ShuffledRises(order: seq<int>)
    requires forall i | 0 <= i < |order| :: 0 <= order[i] < DECK_SIZE
    ensures Rising(Shuffled(order))
  {
  }

  lemma PrefixRises(tiles: seq<Tile>, n: nat)
    requires Rising(tiles) && n <= |tiles|
    ensures Rising(tiles[..n])
  {
  }

  lemma DealtPrefix(n: nat, order: seq<int>)
    requires MIN_PLAYERS <= n <= MAX_PLAYERS && IsPermutation(order)
    ensures n * HandSize(n) <= |NonJokers(Shuffled(order))| && DealtTiles(n, order) == NonJokers(Shuffled(order))[..n * HandSize(n)]
  {
    NonJokersMany(order, 0);
    assert Shuffled(order)[0..] == Shuffled(order);
    assert n * HandSize(n) <= 12;
    hide Shuffled, NonJokers;
  }

  lemma DealtRises(n: nat, order: seq<int>)
    requires MIN_PLAYERS <= n <= MAX_PLAYERS && IsPermutation(order)
    ensures Rising(Shuffled(order)) && Rising(DealtTiles(n, order)) && Rising(DeckAfterDeal(n, order))
  {
    assert forall i | 0 <= i < |order| :: 0 <= order[i] < DECK_SIZE;
    hide Rising, Shuffled, NonJokers, HandSize, Without, IsPermutation, DealtTiles;
    ShuffledRises(order);
    NonJokersRise(Shuffled(order));
    DealtPrefix(n, order);
    PrefixRises(NonJokers(Shuffled(order)), n * HandSize(n));
    WithoutRises(Shuffled(order), set t | t in DealtTiles(n, order) :: t.id);
  }

  lemma DealtTilesAre(players: seq<PlayerId>, order: seq<int>, p: PlayerId, t: Tile)
    requires MIN_PLAYERS <= |players| <= MAX_PLAYERS && IsPermutation(order) && NoDuplicates(players) && p in players
    requires t in DealHands(players, DealtTiles(|players|, order), HandSize(|players|))[p]
    ensures t in DealtTiles(|players|, order) && IsFrom(order, t) && !t.revealed && t.face.number != -1
  {
    assert forall i | 0 <= i < |order| :: 0 <= order[i] < DECK_SIZE;
    hide DealHands, DealtTiles, Shuffled, Rising, AllBefore, HandSize, Genuine, IsFrom, IsPermutation, Without, DeckAfterDeal, NoDuplicates, Ids;
    var n := |players|;
    DealtRises(n, order);
    HandsRise(players, DealtTiles(n, order), HandSize(n));
    DealtTilesSound(n, order);
    assert !IsJoker(t);
    FromShuffle(order, t);
  }

  lemma DealtShape(players: seq<PlayerId>, order: seq<int>, p: PlayerId)
    requires MIN_PLAYERS <= |players| <= MAX_PLAYERS && IsPermutation(order) && NoDuplicates(players) && p in players
    ensures var hand := DealHands(players, DealtTiles(|players|, order), HandSize(|players|))[p];
            |hand| == (if |players| == 4 then 3 else 4) && Ascending(hand)
  {
    assert HandSize(|players|) == if |players| == 4 then 3 else 4;
    assert forall i | 0 <= i < |order| :: 0 <= order[i] < DECK_SIZE;
    hide DealHands, DealtTiles, Shuffled, Ordered, HandSize, Genuine, IsFrom, IsPermutation, Without, DeckAfterDeal, Ascending, NoDuplicates;
    var hand := DealHands(players, DealtTiles(|players|, order), HandSize(|players|))[p];
    DealtRow(players, order);
    forall t | t in hand ensures t.face.number != -1 { DealtTilesAre(players, order, p, t); }
    AscendingOf(hand);
  }

  lemma DealtHand(players: seq<PlayerId>, order: seq<int>, p: PlayerId)
    requires MIN_PLAYERS <= |players| <= MAX_PLAYERS && IsPermutation(order) && NoDuplicates(players) && p in players
    ensures var hands := DealHands(players, DealtTiles(|players|, order), HandSize(|players|));
            HandDealt(order, hands[p], if |players| == 4 then 3 else 4)
  {
    assert forall i | 0 <= i < |order| :: 0 <= order[i] < DECK_SIZE;
    hide DealHands, DealtTiles, Ascending, HandSize, IsFrom, IsPermutation, NoDuplicates;
    var hand := DealHands(players, DealtTiles(|players|, order), HandSize(|players|))[p];
    DealtShape(players, order, p);
    forall t | t in hand ensures IsFrom(order, t) && !t.revealed && t.face.number != -1 {
      DealtTilesAre(players, order, p, t);
    }
  }

  lemma DealtSeats(players: seq<PlayerId>, order: seq<int>, i: nat, j: nat)
    requires MIN_PLAYERS <= |players| <= MAX_PLAYERS && IsPermutation(order) && NoDuplicates(players) && i < j < |players|
    ensures var hands := DealHands(players, DealtTiles(|players|, order), HandSize(|players|));
            AllBefore(hands[players[i]], hands[players[j]])
  {
    assert forall n | 0 <= n < |order| :: 0 <= order[n] < DECK_SIZE;
    hide DealHands, DealtTiles, Rising, AllBefore, HandSize, IsPermutation, NoDuplicates;
    DealtRises(|players|, order);
    HandsRise(players, DealtTiles(|players|, order), HandSize(|players|));
  }

  lemma DealtHands(players: seq<PlayerId>, order: seq<int>)
    requires MIN_PLAYERS <= |players| <= MAX_PLAYERS && IsPermutation(order) && NoDuplicates(players)
    ensures HandsDealt(players, order, DealHands(players, DealtTiles(|players|, order), HandSize(|players|)))
  {
    assert forall i | 0 <= i < |order| :: 0 <= order[i] < DECK_SIZE;
    hide DealHands, DealtTiles, AllBefore, HandDealt, HandSize, IsPermutation, NoDuplicates;
    var n := |players|;
    var hands := DealHands(players, DealtTiles(n, order), HandSize(n));
    forall i, j | 0 <= i < j < n ensures AllBefore(hands[players[i]], hands[players[j]]) {
      DealtSeats(players, order, i, j);
    }
    forall p | p in players ensures HandDealt(order, hands[p], if n == 4 then 3 else 4) {
      DealtHand(players, order, p);
    }
  }

  lemma DealtRest(n: nat, order: seq<int>)
    requires MIN_PLAYERS <= n <= MAX_PLAYERS && IsPermutation(order)
    ensures var rest := DeckAfterDeal(n, order); var dealt := DealtTiles(n, order);
      && Rising(rest)
      && (forall t | t in rest :: IsFrom(order, t) && !t.revealed)
      && (forall t, u | t in dealt && u in rest :: t.id != u.id && (u.face.number != -1 ==> t.id < u.id))
  {
    var all, dealt, rest := Shuffled(order), DealtTiles(n, order), DeckAfterDeal(n, order);
    DealtPrefix(n, order);
    DealtRises(n, order);
    DeckFromShuffle(n, order);
    var ids := set t | t in dealt :: t.id;
    assert forall u | u in rest :: u.id !in ids;
    hide Shuffled, NonJokers, DealtTiles, DeckAfterDeal, Rising, Without, HandSize, IsFrom;
    forall t | t in rest ensures IsFrom(order, t) && !t.revealed { FromShuffle(order, t); }
    forall t, u | t in dealt && u in rest ensures t.id != u.id && (u.face.number != -1 ==> t.id < u.id) {
      assert t.id in ids;
      if u.face.number != -1 { LeftBehind(all, n * HandSize(n), t, u); }
    }
  }

  lemma DealtDeck(players: seq<PlayerId>, order: seq<int>)
    requires MIN_PLAYERS <= |players| <= MAX_PLAYERS && IsPermutation(order) && NoDuplicates(players)
    ensures var hands := DealHands(players, DealtTiles(|players|, order), HandSize(|players|));
            RestDealt(players, order, hands, DeckAfterDeal(|players|, order))
  {
    var n := |players|;
    assert HandSize(n) == if n == 4 then 3 else 4;
    assert forall i | 0 <= i < |order| :: 0 <= order[i] < DECK_SIZE;
    hide DealHands, DealtTiles, DeckAfterDeal, HandSize, Shuffled, Rising, IsFrom, IsPermutation, Genuine, Ordered, NoDuplicates;
    var hands, rest := DealHands(players, DealtTiles(n, order), HandSize(n)), DeckAfterDeal(n, order);
    DealtRest(n, order);
    DeckSize(players, order);
    forall p: PlayerId, t: Tile, u: Tile | p in players && t in hands[p] && u in rest
      ensures t.id != u.id && (u.face.number != -1 ==> t.id < u.id)
    {
      DealtTilesAre(players, order, p, t);
    }
  }

  lemma DeckSize(players: seq<PlayerId>, order: seq<int>)
    requires MIN_PLAYERS <= |players| <= MAX_PLAYERS && IsPermutation(order) && NoDuplicates(players)
    ensures |DeckAfterDeal(|players|, order)| == 26 - |players| * HandSize(|players|)
  {
    DealtRow(players, order);
  }

  lemma DeckIsLeft(players: seq<PlayerId>, order: seq<int>)
    requires MIN_PLAYERS <= |players| <= MAX_PLAYERS && IsPermutation(order) && NoDuplicates(players)
    ensures |DeckAfterDeal(|players|, order)| > 0
  {
    DeckSize(players, order);
    assert |players| * HandSize(|players|) <= 12;
  }

  /** A table of two to four different players with the 26 tiles in any order is dealt by the rules. */
  lemma DealFollowsRules(players: seq<PlayerId>, order: seq<int>, now: int)
    requires Initial(players, order, now).Success?
    ensures DealRule(players, order, now, Initial(players, order, now).value)
  {
    hide DealHands, DealtTiles, DeckAfterDeal, HandSize, HandsDealt, RestDealt, IsPermutation, NoDuplicates, Distinct;
    var n := |players|;
    InitialAccepts(players, order, now);
    DealtHands(players, order);
    DealtDeck(players, order);
    var deck := DeckAfterDeal(n, order);
    DeckIsLeft(players, order);
    assert deck == [deck[0]] + deck[1..];
  }

  /** Which setups are refused, and why. */
  lemma SetupRefused(players: seq<PlayerId>, order: seq<int>, now: int)
    ensures Initial(players, order, now).Success?
            <==> 2 <= |players| <= 4 && NoDuplicates(players) && IsPermutation(order)
    ensures Initial(players, order, now).Failure? ==>
              Initial(players, order, now).error ==
              if !(2 <= |players| <= 4) then RequiresTwoToFourPlayers
              else if !NoDuplicates(players) then DuplicatePlayer
              else InvalidDeckOrder
  {
    DistinctIffNoDuplicates(players);
    DistinctIffNoDuplicates(order);
    hide Distinct, NoDuplicates, DealHands, DealtTiles, DeckAfterDeal;
  }

  lemma DistinctIffNoDuplicates<T(!new)>(s: seq<T>)
    ensures Distinct(s) <==> NoDuplicates(s)
  {
    if Distinct(s) {
      DistinctHasNoDuplicates(s);
    } else if NoDuplicates(s) {
      DistinctOfNoDuplicates(s);
    }
  }

  lemma {:induction false} DistinctOfNoDuplicates<T(!new)>(s: seq<T>)
    requires NoDuplicates(s)
    ensures Distinct(s)
  {
    if s != [] {
      var rest := set x | x in s[1..];
      HeadNotInTail(s);
      hide NoDuplicates;
      DistinctOfNoDuplicates(s[1..]);
      assert s == [s[0]] + s[1..];
      assert (set x | x in s) == {s[0]} + rest;
      AddOne(s[0], rest);
    }
  }

  lemma HeadNotInTail<T(!new)>(s: seq<T>)
    requires NoDuplicates(s) && s != []
    ensures NoDuplicates(s[1..]) && s[0] !in s[1..]
  {
  }

  // ---------------------------------------------------------------- whole games

  /** From the deal to the end, each input does what the rules say, in every state a game can come to. */
  lemma GameFollowsRules(players: seq<PlayerId>, order: seq<int>, now: int, inputs: seq<TimedInput>, i: TimedInput)
    requires Initial(players, order, now).Success?
    ensures var s := Run(Initial(players, order, now).value, inputs);
      s.turnPlayerId in s.hands && Rules(s, i, Step(s, i))
  {
    hide Inv, Rules, Step, Initial, AllTiles, Measure;
    InitialSound(players, order, now);
    RunSound(order, Initial(players, order, now).value, inputs);
    StepFollowsRules(order, Run(Initial(players, order, now).value, inputs), i);
  }

  /** A call that may be made and names the number of the hidden tile it is about. */
  ghost predicate RightCall(s: State, i: Input, p: PlayerId) {
    && i.GuessInput? && i.playerId == p && MayCall(s, p, i.inputSeq, i.targetId, i.tileId, i.number)
    && forall k: nat | k < |s.hands[i.targetId]| && StandsHidden(s.hands[i.targetId], i.tileId, k) ::
         s.hands[i.targetId][k].face.number == i.number
  }

  lemma EndsKeepHits(s: State, failed: bool, s': State, now: int)
    requires s.turnPlayerId in s.hands && TurnEnds(s, failed, s', now)
    ensures s'.hits == s.hits
  {
    hide StandsInOrder, Opens, AllOpen;
  }

  lemma CallKeepsHits(order: seq<int>, s: State, i: TimedInput, p: PlayerId)
    requires Inv(order, s) && i.input.GuessInput?
    ensures At(Step(s, i).hits, p, 0) == At(s.hits, p, 0) + if RightCall(s, i.input, p) then 1 else 0
  {
    hide Inv, TurnEnds, Opens, AllOpen, MayCall, CallOpens, StandsHidden, Guess;
    var s' := Step(s, i);
    var g := i.input;
    GuessFollows(order, s, g.playerId, g.inputSeq, g.targetId, g.tileId, g.number, i.now);
    if MayCall(s, g.playerId, g.inputSeq, g.targetId, g.tileId, g.number) {
      Callable(order, s, g.playerId, g.inputSeq, g.targetId, g.tileId, g.number);
      var hand := s.hands[g.targetId];
      var k: nat :| k < |hand| && StandsHidden(hand, g.tileId, k)
        && var right := hand[k].face.number == g.number;
           if right then CallOpens(s, g.targetId, k, s', i.now) else TurnEnds(s, true, s', i.now);
      if hand[k].face.number == g.number {
        CallCounts(s, g.targetId, k, s', i.now);
      } else {
        EndsKeepHits(s, true, s', i.now);
      }
    }
  }

  lemma CallCounts(s: State, target: PlayerId, k: nat, s': State, now: int)
    requires target in s.hands && CallOpens(s, target, k, s', now)
    ensures s'.hits == s.hits[s.turnPlayerId := At(s.hits, s.turnPlayerId, 0) + 1]
  {
    hide Opens, AllOpen, Ended, AtMostOneIn;
  }

  lemma Callable(order: seq<int>, s: State, p: PlayerId, q: int, target: PlayerId, tile: nat, number: int)
    requires Inv(order, s) && MayCall(s, p, q, target, tile, number)
    ensures s.turnPlayerId == p && target in s.hands
    ensures forall j: nat, k: nat | j < |s.hands[target]| && k < |s.hands[target]|
              && StandsHidden(s.hands[target], tile, j) && StandsHidden(s.hands[target], tile, k) ::
              s.hands[target][j] == s.hands[target][k]
  {
    hide Inv;
    OneStands(order, s, target, tile);
  }

  lemma OneStands(order: seq<int>, s: State, target: PlayerId, tile: nat)
    requires Inv(order, s) && target in s.playerOrder
    ensures target in s.hands
    ensures forall j: nat, k: nat | j < |s.hands[target]| && k < |s.hands[target]|
              && StandsHidden(s.hands[target], tile, j) && StandsHidden(s.hands[target], tile, k) ::
              s.hands[target][j] == s.hands[target][k]
  {
    FoundStands(order, s, target, tile);
  }

  lemma OthersKeepHits(order: seq<int>, s: State, i: TimedInput)
    requires Inv(order, s) && !i.input.GuessInput?
    ensures Step(s, i).hits == s.hits
  {
    StepFollowsRules(order, s, i);
    var s' := Step(s, i);
    hide Inv, Step, AllOpen, TurnEnds, SameTiles, AtMostOneIn, Ended;
    match i.input
    case DecideInput(p, q, decision) =>
      if MayAct(s, Deciding, p, q) && decision == Stop { EndsKeepHits(s, false, s', i.now); }
    case ExpireInput =>
      if s.phase == Guessing { EndsKeepHits(s, true, s', i.now); }
      if s.phase == Deciding { EndsKeepHits(s, false, s', i.now); }
    case _ =>
  }

  /** The right calls of one player over a run. */
  ghost function RightCalls(s: State, inputs: seq<TimedInput>, p: PlayerId): nat
    decreases |inputs|
  {
    if inputs == [] then 0
    else (if RightCall(s, inputs[0].input, p) then 1 else 0) + RightCalls(Step(s, inputs[0]), inputs[1..], p)
  }

  lemma {:induction false} HitsAreCalls(order: seq<int>, s: State, inputs: seq<TimedInput>, p: PlayerId)
    requires Inv(order, s)
    ensures At(Run(s, inputs).hits, p, 0) == At(s.hits, p, 0) + RightCalls(s, inputs, p)
    decreases |inputs|
  {
    hide Inv, Step, RightCall, AllTiles, Measure;
    if inputs != [] {
      if inputs[0].input.GuessInput? {
        CallKeepsHits(order, s, inputs[0], p);
      } else {
        OthersKeepHits(order, s, inputs[0]);
        NoCall(s, inputs[0].input, p);
      }
      StepKeepsInv(order, s, inputs[0]);
      HitsAreCalls(order, Step(s, inputs[0]), inputs[1..], p);
    }
  }

  lemma NoCall(s: State, i: Input, p: PlayerId)
    requires !i.GuessInput?
    ensures !RightCall(s, i, p)
  {
  }

  lemma StepKeepsInv(order: seq<int>, s: State, i: TimedInput)
    requires Inv(order, s)
    ensures Inv(order, Step(s, i))
  {
    hide Inv, Step, AllTiles, Measure;
    StepSound(order, s, i);
  }

  lemma {:induction false} HiddenPlaces(hand: seq<Tile>)
    ensures |HiddenTiles(hand)| == |set k: nat | k < |hand| && !hand[k].revealed|
  {
    if hand != [] {
      var n: nat := |hand| - 1;
      var init := hand[..n];
      HiddenPlaces(init);
      assert hand == init + [hand[n]];
      HiddenConcat(init, [hand[n]]);
      assert HiddenTiles([hand[n]]) == if hand[n].revealed then [] else [hand[n]];
      hide HiddenTiles;
      var before := set k: nat | k < |init| && !init[k].revealed;
      assert (set k: nat | k < |hand| && !hand[k].revealed) == if hand[n].revealed then before else before + {n};
    }
  }

  /** Points are earned: one for each right call of the game, and one for each tile still hidden. */
  lemma ScoreIsEarned(players: seq<PlayerId>, order: seq<int>, now: int, inputs: seq<TimedInput>, p: PlayerId)
    requires Initial(players, order, now).Success? && p in players
    ensures var s0 := Initial(players, order, now).value; var s := Run(s0, inputs);
      && p in s.hands
      && ScoreOf(s, p) == RightCalls(s0, inputs, p) + |set k: nat | k < |s.hands[p]| && !s.hands[p][k].revealed|
  {
    hide Inv, Step, AllTiles, Measure, HiddenTiles, RightCall, IsPermutation;
    var s0 := Initial(players, order, now).value;
    assert At(s0.hits, p, 0) == 0 && s0.playerOrder == players;
    hide Initial;
    InitialSound(players, order, now);
    RunSound(order, s0, inputs);
    var s := Run(s0, inputs);
    InvSeated(order, s);
    HitsAreCalls(order, s0, inputs, p);
    HiddenPlaces(s.hands[p]);
    hide RightCalls, Run;
  }
}
