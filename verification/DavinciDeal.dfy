/** Da Vinci Code: the dealt state satisfies the invariant, whatever the shuffle, and so does every state after it. */
module DavinciDeal {
  import opened Wrappers
  import opened DavinciState
  import opened DavinciRules
  import opened DavinciInvariant
  import opened DavinciSteps
  import opened DavinciTransitions
  import opened DavinciRuns

  lemma {:induction false} DistinctHasNoDuplicates<T(!new)>(s: seq<T>)
    requires Distinct(s)
    ensures NoDuplicates(s)
  {
    if s != [] {
      var rest := s[1..];
      DistinctTail(s);
      hide Distinct;
      DistinctHasNoDuplicates(rest);
      ConsNoDuplicates(s[0], rest);
      assert s == [s[0]] + rest;
    }
  }

  lemma DistinctTail<T(!new)>(s: seq<T>)
    requires Distinct(s) && s != []
    ensures Distinct(s[1..]) && s[0] !in s[1..]
  {
    var rest := set x | x in s[1..];
    SetSizeAtMost(s[1..]);
    assert (set x | x in s) == {s[0]} + rest;
    AddOne(s[0], rest);
  }

  lemma AddOne<T(!new)>(x: T, s: set<T>)
    ensures |{x} + s| == if x in s then |s| else |s| + 1
  {
    if x in s { assert {x} + s == s; }
  }

  lemma ConsNoDuplicates<T(!new)>(x: T, rest: seq<T>)
    requires x !in rest && NoDuplicates(rest)
    ensures NoDuplicates([x] + rest)
  {
  }

  lemma SetSizeAtMost<T(!new)>(s: seq<T>)
    ensures |set x | x in s| <= |s|
  {
    if s != [] {
      SetSizeAtMost(s[1..]);
      assert (set x | x in s) == {s[0]} + set x | x in s[1..];
    }
  }

  // ---------------------------------------------------------------- counting tiles

  lemma ConsIds(t: Tile, rest: seq<Tile>)
    ensures multiset(Ids([t] + rest)) == multiset{t.id} + multiset(Ids(rest))
  {
    IdsConcat([t], rest);
    assert Ids([t]) == [t.id];
  }

  lemma JokerPlaces(i: nat)
    requires i < DECK_SIZE
    ensures StandardFace(i).number == JOKER <==> i == 12 || i == 25
  {
  }

  /** All but at most two of the tiles dealt from place `k` on carry a number. */
  lemma {:induction false} NonJokersMany(order: seq<int>, k: nat)
    requires IsPermutation(order) && k <= DECK_SIZE
    ensures |NonJokers(Shuffled(order)[k..])|
         == DECK_SIZE - k - (if 12 in order[k..] then 1 else 0) - (if 25 in order[k..] then 1 else 0)
    decreases DECK_SIZE - k
  {
    if k < DECK_SIZE {
      NonJokersMany(order, k + 1);
      var tiles := Shuffled(order)[k..];
      assert tiles[1..] == Shuffled(order)[k + 1..];
      assert order[k..] == [order[k]] + order[k + 1..];
      assert order[k] !in order[k + 1..];
      assert tiles[0].face == StandardFace(order[k]);
      JokerPlaces(order[k]);
      hide Shuffled, StandardFace, NoDuplicates;
    }
  }

  lemma {:induction false} NonJokersCounts(tiles: seq<Tile>)
    ensures multiset(Ids(NonJokers(tiles))) <= multiset(Ids(tiles))
  {
    hide Ids;
    if tiles != [] {
      NonJokersCounts(tiles[1..]);
      assert tiles == [tiles[0]] + tiles[1..];
      ConsIds(tiles[0], tiles[1..]);
      ConsIds(tiles[0], NonJokers(tiles[1..]));
    }
  }

  lemma PrefixCounts(tiles: seq<Tile>, n: nat)
    requires n <= |tiles|
    ensures multiset(Ids(tiles[..n])) <= multiset(Ids(tiles))
  {
    assert tiles[..n] + tiles[n..] == tiles;
    IdsConcat(tiles[..n], tiles[n..]);
  }

  lemma {:induction false} WithoutCounts(tiles: seq<Tile>, ids: set<nat>, id: nat)
    ensures multiset(Ids(Without(tiles, ids)))[id] == if id in ids then 0 else multiset(Ids(tiles))[id]
  {
    if tiles == [] {
      assert Ids(tiles) == [];
    } else {
      hide Ids;
      WithoutCounts(tiles[1..], ids, id);
      assert tiles == [tiles[0]] + tiles[1..];
      ConsIds(tiles[0], tiles[1..]);
      ConsIds(tiles[0], Without(tiles[1..], ids));
    }
  }

  lemma IdPresent(tiles: seq<Tile>, id: nat)
    ensures multiset(Ids(tiles))[id] > 0 <==> exists t | t in tiles :: t.id == id
  {
    if multiset(Ids(tiles))[id] > 0 {
      assert id in Ids(tiles);
      var i :| 0 <= i < |tiles| && Ids(tiles)[i] == id;
      assert tiles[i] in tiles;
    }
    if t :| t in tiles && t.id == id {
      var i :| 0 <= i < |tiles| && tiles[i] == t;
      assert Ids(tiles)[i] == id;
    }
  }

  /** Taking some tiles out of a set of distinct ones leaves exactly the others. */
  lemma DealtAndDeck(all: seq<Tile>, dealt: seq<Tile>)
    requires forall id :: multiset(Ids(all))[id] <= 1
    requires multiset(Ids(dealt)) <= multiset(Ids(all))
    ensures var deck := Without(all, set t | t in dealt :: t.id);
      multiset(Ids(dealt)) + multiset(Ids(deck)) == multiset(Ids(all))
  {
    var ids := set t | t in dealt :: t.id;
    var deck := Without(all, ids);
    forall id ensures multiset(Ids(dealt))[id] + multiset(Ids(deck))[id] == multiset(Ids(all))[id] {
      WithoutCounts(all, ids, id);
      IdPresent(dealt, id);
    }
  }

  // ---------------------------------------------------------------- sorting and dealing hands

  lemma HeadIsNew(order: seq<int>, hand: seq<Tile>)
    requires Genuine(order, hand) && hand != []
    ensures Genuine(order, hand[1..])
    ensures forall t | t in hand[1..] :: t.face != hand[0].face
  {
    assert [hand[0]] + hand[1..] + [] == hand;
    GenuinePart(order, [hand[0]], hand[1..], []);
    forall t | t in hand[1..] ensures t.face != hand[0].face {
      var j :| 0 <= j < |hand[1..]| && hand[1..][j] == t;
      GenuineDistinct(order, hand, 0, j + 1);
    }
  }

  lemma {:induction false} SortedSound(order: seq<int>, hand: seq<Tile>)
    requires Genuine(order, hand) && forall t | t in hand :: !IsJoker(t)
    ensures Ordered(Sorted(hand))
    ensures multiset(Ids(Sorted(hand))) == multiset(Ids(hand))
    ensures |Sorted(hand)| == |hand|
    ensures forall t | t in Sorted(hand) :: t in hand
  {
    if hand != [] {
      HeadIsNew(order, hand);
      hide Genuine, Ordered, InsertIndexOf, Ids, HiddenTiles;
      SortedSound(order, hand[1..]);
      var rest := Sorted(hand[1..]);
      InsertKeepsOrder(rest, hand[0]);
      InsertCounts(rest, hand[0], InsertIndexOf(rest, hand[0].face));
      assert hand == [hand[0]] + hand[1..];
      ConsIds(hand[0], hand[1..]);
      ConsIds(hand[0], []);
      assert [hand[0]] + [] == [hand[0]];
    }
  }

  lemma GenuineSlice(order: seq<int>, tiles: seq<Tile>, a: nat, b: nat)
    requires Genuine(order, tiles) && a <= b <= |tiles|
    ensures Genuine(order, tiles[a..b])
  {
    assert tiles[..a] + tiles[a..b] + tiles[b..] == tiles;
    GenuinePart(order, tiles[..a], tiles[a..b], tiles[b..]);
  }

  /** The hands of `seats` are the tiles of `dealt`, each hand sorted and of the right size. */
  ghost predicate DealtTo(seats: seq<PlayerId>, hands: map<PlayerId, seq<Tile>>, dealt: seq<Tile>, size: nat)
    requires forall p | p in seats :: p in hands
  {
    && multiset(Ids(Row(seats, hands))) == multiset(Ids(dealt))
    && (forall t | t in Row(seats, hands) :: t in dealt)
    && (forall p | p in seats :: Ordered(hands[p]) && |hands[p]| == size)
  }

  lemma AddHand(p: PlayerId, seats: seq<PlayerId>, hands: map<PlayerId, seq<Tile>>, slice: seq<Tile>, dealt: seq<Tile>, size: nat, h: seq<Tile>)
    requires (forall q | q in seats :: q in hands) && p !in seats
    requires DealtTo(seats, hands, dealt, size)
    requires Ordered(h) && |h| == size && multiset(Ids(h)) == multiset(Ids(slice)) && forall t | t in h :: t in slice
    ensures DealtTo([p] + seats, hands[p := h], slice + dealt, size)
  {
    hide Ordered, Ids;
    RowFrame(seats, hands, p, h);
    assert ([p] + seats)[1..] == seats;
    assert Row([p] + seats, hands[p := h]) == h + Row(seats, hands);
    IdsConcat(h, Row(seats, hands));
    IdsConcat(slice, dealt);
  }

  lemma NothingDealt(hands: map<PlayerId, seq<Tile>>, size: nat)
    ensures DealtTo([], hands, [], size)
  {
  }

  /** Seat by seat, the hands are the dealt tiles, each sorted. */
  lemma {:induction false} DealRow(order: seq<int>, players: seq<PlayerId>, dealt: seq<Tile>, size: nat)
    requires NoDuplicates(players)
    requires Genuine(order, dealt) && |dealt| == |players| * size
    requires forall t | t in dealt :: !IsJoker(t)
    ensures DealtTo(players, DealHands(players, dealt, size), dealt, size)
  {
    if players == [] {
      assert dealt == [];
      NothingDealt(DealHands(players, dealt, size), size);
    } else {
      assert |players| * size == size + (|players| - 1) * size;
      assert players == [players[0]] + players[1..] && players[0] !in players[1..];
      DealFirst(order, dealt, size);
      hide Genuine, Ordered, IsJoker, DealtTo, Sorted, Ids, NoDuplicates;
      assert NoDuplicates(players[1..]) by { NoDuplicatesTail(players); }
      DealRow(order, players[1..], dealt[size..], size);
      AddHand(players[0], players[1..], DealHands(players[1..], dealt[size..], size), dealt[..size], dealt[size..], size,
              Sorted(dealt[..size]));
    }
  }

  lemma NoDuplicatesTail<T(!new)>(s: seq<T>)
    requires NoDuplicates(s) && s != []
    ensures NoDuplicates(s[1..])
  {
  }

  lemma DealFirst(order: seq<int>, dealt: seq<Tile>, size: nat)
    requires Genuine(order, dealt) && size <= |dealt| && forall t | t in dealt :: !IsJoker(t)
    ensures dealt == dealt[..size] + dealt[size..]
    ensures Slice(dealt, 0, size) == dealt[..size] && Rest(dealt, size) == dealt[size..]
    ensures Genuine(order, dealt[size..])
    ensures var h := Sorted(dealt[..size]);
      Ordered(h) && |h| == size && multiset(Ids(h)) == multiset(Ids(dealt[..size])) && forall t | t in h :: t in dealt[..size]
  {
    assert dealt[0..size] == dealt[..size];
    hide Genuine, IsJoker;
    GenuineSlice(order, dealt, 0, size);
    assert dealt[size..|dealt|] == dealt[size..];
    GenuineSlice(order, dealt, size, |dealt|);
    SortedSound(order, dealt[..size]);
  }

  // ---------------------------------------------------------------- the dealt state

  lemma ShuffledGenuine(order: seq<int>)
    requires IsPermutation(order)
    ensures Genuine(order, Shuffled(order)) && |Shuffled(order)| == DECK_SIZE
  {
    var tiles := Shuffled(order);
    forall id: nat ensures multiset(Ids(tiles))[id] <= 1 {
      if id < DECK_SIZE {
        var a, b := tiles[..id], tiles[id + 1..];
        assert tiles == a + [tiles[id]] + b;
        RowCounts(a, [tiles[id]], b);
        NotPresent(a, id);
        NotPresent(b, id);
        assert Ids([tiles[id]]) == [id];
      } else {
        NotPresent(tiles, id);
      }
    }
  }

  lemma NotPresent(tiles: seq<Tile>, id: nat)
    requires forall t | t in tiles :: t.id != id
    ensures multiset(Ids(tiles))[id] == 0
  {
    IdPresent(tiles, id);
  }

  lemma SubsetGenuine(order: seq<int>, all: seq<Tile>, part: seq<Tile>)
    requires Genuine(order, all) && multiset(Ids(part)) <= multiset(Ids(all))
    requires forall t | t in part :: t in all
    ensures Genuine(order, part)
  {
  }

  /** There are enough numbered tiles for every hand; what is left over is the deck, jokers included. */
  lemma DealtTilesSound(n: nat, order: seq<int>)
    requires MIN_PLAYERS <= n <= MAX_PLAYERS && IsPermutation(order)
    ensures var dealt := DealtTiles(n, order); var deck := Without(Shuffled(order), set t | t in dealt :: t.id);
      && Genuine(order, dealt) && |dealt| == n * HandSize(n)
      && (forall t | t in dealt :: !IsJoker(t) && t in Shuffled(order))
      && multiset(Ids(dealt)) + multiset(Ids(deck)) == multiset(Ids(Shuffled(order)))
  {
    var all := Shuffled(order);
    var numbered := NonJokers(all);
    var dealt := DealtTiles(n, order);
    NonJokersMany(order, 0);
    assert all[0..] == all;
    assert n * HandSize(n) <= 12;
    assert dealt == numbered[..n * HandSize(n)];
    ShuffledGenuine(order);
    NonJokersCounts(all);
    PrefixCounts(numbered, n * HandSize(n));
    hide Ids, Shuffled, NonJokers, Slice, StandardFace;
    SubsetGenuine(order, all, dealt);
    DealtAndDeck(all, dealt);
  }

  lemma IdsLength(a: seq<Tile>, b: seq<Tile>, c: seq<Tile>)
    requires multiset(Ids(a)) + multiset(Ids(b)) == multiset(Ids(c))
    ensures |a| + |b| == |c|
  {
    assert |multiset(Ids(a))| == |a| && |multiset(Ids(b))| == |b| && |multiset(Ids(c))| == |c|;
  }

  /** Hands and deck together are the 26 tiles, each once, all hidden. */
  lemma DealtRow(players: seq<PlayerId>, order: seq<int>)
    requires MIN_PLAYERS <= |players| <= MAX_PLAYERS && IsPermutation(order) && NoDuplicates(players)
    ensures var size := HandSize(|players|);
      var hands := DealHands(players, DealtTiles(|players|, order), size);
      var tiles := Row(players, hands) + DeckAfterDeal(|players|, order);
      && Genuine(order, tiles) && |tiles| == DECK_SIZE
      && (forall t | t in tiles :: t in Shuffled(order))
      && (forall p | p in players :: Ordered(hands[p]) && |hands[p]| == size)
      && |DeckAfterDeal(|players|, order)| == DECK_SIZE - |players| * size
  {
    var n := |players|;
    var dealt, deck, all := DealtTiles(n, order), DeckAfterDeal(n, order), Shuffled(order);
    var hands := DealHands(players, dealt, HandSize(n));
    DealtTilesSound(n, order);
    ShuffledGenuine(order);
    hide DealtTiles, DealHands, DeckAfterDeal, Genuine, Ordered, Ids, Shuffled, HandSize, StandardFace;
    assert forall t | t in deck :: t in all by { DeckFromShuffle(n, order); }
    DealRow(order, players, dealt, HandSize(n));
    var row := Row(players, hands);
    hide NoDuplicates;
    IdsConcat(row, deck);
    IdsLength(row, deck, all);
    IdsLength(dealt, deck, all);
    SubsetGenuine(order, all, row + deck);
  }

  lemma DeckFromShuffle(n: nat, order: seq<int>)
    requires forall i | 0 <= i < |order| :: 0 <= order[i] < DECK_SIZE
    ensures forall t | t in DeckAfterDeal(n, order) :: t in Shuffled(order)
  {
  }

  /** A shuffle the setup accepts is a permutation, and players it accepts are distinct. */
  lemma InitialAccepts(players: seq<PlayerId>, order: seq<int>, now: int)
    requires Initial(players, order, now).Success?
    ensures MIN_PLAYERS <= |players| <= MAX_PLAYERS && IsPermutation(order) && NoDuplicates(players)
  {
    DistinctHasNoDuplicates(players);
    DistinctHasNoDuplicates(order);
  }

  /** What the rest of the proof uses of a dealt state. */
  ghost predicate Fresh(players: seq<PlayerId>, order: seq<int>, s: State) {
    && MIN_PLAYERS <= |players| <= MAX_PLAYERS && IsPermutation(order) && NoDuplicates(players)
    && s.playerOrder == players && s.turnPlayerId == players[0] && s.version == 1 && s.phase == Guessing
    && s.hands == DealHands(players, DealtTiles(|players|, order), HandSize(|players|))
    && Held(s.drawn) + s.deck == DeckAfterDeal(|players|, order) && (s.drawn.None? ==> s.deck == [])
    && s.eliminated == [] && s.winnerId.None? && s.hits == map p | p in players :: 0
  }

  lemma InitialIsFresh(players: seq<PlayerId>, order: seq<int>, now: int)
    requires Initial(players, order, now).Success?
    ensures Fresh(players, order, Initial(players, order, now).value)
  {
    hide Distinct, DealHands, DealtTiles, DeckAfterDeal, HandSize, NoDuplicates, IsPermutation;
    InitialAccepts(players, order, now);
    FirstDraw(DeckAfterDeal(|players|, order));
  }

  lemma SumHitsZero(players: seq<PlayerId>, hits: map<PlayerId, int>)
    requires forall p | p in players :: At(hits, p, 0) == 0
    ensures SumHits(players, hits) == 0
  {
  }

  lemma SurvivorsAll(players: seq<PlayerId>)
    ensures Survivors(players, []) == players
  {
  }

  lemma FreshSeated(players: seq<PlayerId>, order: seq<int>, s: State)
    requires Fresh(players, order, s)
    ensures Seated(s) && AllTiles(s) == Row(players, s.hands) + DeckAfterDeal(|players|, order)
  {
    hide DealtTiles, DeckAfterDeal, HandSize, IsPermutation, NoDuplicates, Row, Held;
    assert forall p :: p in s.hands <==> p in players;
    hide DealHands;
    Associates(Row(players, s.hands), Held(s.drawn), s.deck);
  }

  lemma Associates(a: seq<Tile>, b: seq<Tile>, c: seq<Tile>)
    ensures a + b + c == a + (b + c)
  {
  }

  lemma HandSizes(n: nat)
    requires MIN_PLAYERS <= n <= MAX_PLAYERS
    ensures HandSize(n) >= 3 && 8 <= n * HandSize(n) <= 12
  {
  }

  lemma ShuffledHidden(order: seq<int>)
    requires IsPermutation(order)
    ensures forall t | t in Shuffled(order) :: !t.revealed
  {
  }

  /** The freshly dealt table: all 26 tiles, each once, all hidden. */
  lemma FreshTiles(players: seq<PlayerId>, order: seq<int>, s: State)
    requires Fresh(players, order, s)
    ensures Seated(s) && Genuine(order, AllTiles(s)) && |AllTiles(s)| == DECK_SIZE
    ensures forall t | t in AllTiles(s) :: !t.revealed
    ensures forall p | p in players :: Ordered(s.hands[p]) && |s.hands[p]| >= 3
    ensures |Held(s.drawn)| + |s.deck| <= 18
  {
    FreshSeated(players, order, s);
    DealtRow(players, order);
    HandSizes(|players|);
    ShuffledHidden(order);
    hide DealHands, DealtTiles, DeckAfterDeal, HandSize, Genuine, Ordered, Shuffled, AllTiles, Row, Seated, IsPermutation,
         NoDuplicates;
    assert |Held(s.drawn) + s.deck| <= 18;
  }

  lemma FreshHands(players: seq<PlayerId>, order: seq<int>, s: State)
    requires Fresh(players, order, s)
    ensures EliminatedIffWipedOut(players, s.hands, s.eliminated)
  {
    FreshTiles(players, order, s);
    forall p | p in players ensures HiddenCount(s.hands[p]) > 0 {
      forall t | t in s.hands[p] ensures !t.revealed {
        TileInRow(players, s.hands, p, t);
        TileOnTable(s, t);
      }
      HiddenAll(s.hands[p]);
    }
    hide Genuine, Ordered, AllTiles, Seated, HiddenTiles, Fresh;
    assert s.eliminated == [] by { FreshMarks(players, order, s); }
  }

  lemma FreshMarks(players: seq<PlayerId>, order: seq<int>, s: State)
    requires Fresh(players, order, s)
    ensures s.eliminated == [] && s.playerOrder == players && NoDuplicates(s.eliminated)
    ensures SumHits(players, s.hits) == 0
    ensures TurnOk(s.phase, Survivors(players, s.eliminated), s.turnPlayerId, s.winnerId)
  {
    SumHitsZero(players, s.hits);
    SurvivorsAll(players);
  }

  lemma TileOnTable(s: State, t: Tile)
    requires Seated(s)
    ensures t in InHands(s) || t in s.deck || (s.drawn.Some? && s.drawn.value == t) ==> t in AllTiles(s)
  {
  }

  lemma FreshTable(players: seq<PlayerId>, order: seq<int>, s: State)
    requires Fresh(players, order, s)
    ensures Table(order, s)
  {
    FreshTiles(players, order, s);
    FreshMarks(players, order, s);
    HiddenAtMost(InHands(s));
    forall t | t in s.deck ensures !t.revealed { TileOnTable(s, t); }
    hide Genuine, Ordered, AllTiles, Seated, HiddenTiles, Fresh, SumHits, NoDuplicates, Survivors;
  }

  lemma FreshMeasure(players: seq<PlayerId>, order: seq<int>, s: State)
    requires Fresh(players, order, s)
    ensures Seated(s) && Measure(s) <= 89 && DrawOk(s.phase, s.drawn, s.deck)
  {
    FreshTiles(players, order, s);
    HiddenAll(AllTiles(s));
    if s.drawn.Some? { TileOnTable(s, s.drawn.value); }
    assert s.phase == Guessing && (s.drawn.None? ==> s.deck == []);
    hide Fresh, AllTiles, HiddenTiles, Genuine, Ordered, Seated;
  }

  /** The dealt state satisfies the invariant, and its measure is at most 89. */
  lemma FreshInv(players: seq<PlayerId>, order: seq<int>, s: State)
    requires Fresh(players, order, s)
    ensures Inv(order, s) && Seated(s) && Measure(s) <= 89 && |AllTiles(s)| == DECK_SIZE
  {
    hide Table, AllTiles, HiddenTiles, Survivors, NoDuplicates, SumHits, Genuine, Ordered, TurnOk, DrawOk, Measure,
         EliminatedIffWipedOut, Fresh;
    FreshTable(players, order, s);
    FreshTiles(players, order, s);
    FreshMarks(players, order, s);
    FreshHands(players, order, s);
    FreshMeasure(players, order, s);
  }

  /** Every successful deal gives a state that satisfies the invariant. */
  lemma InitialSound(players: seq<PlayerId>, order: seq<int>, now: int)
    requires Initial(players, order, now).Success?
    ensures var s := Initial(players, order, now).value;
      && Inv(order, s) && Seated(s) && s.version == 1 && s.playerOrder == players
      && Measure(s) <= 89 && |AllTiles(s)| == DECK_SIZE
  {
    InitialIsFresh(players, order, now);
    hide Initial, Inv, Seated, AllTiles, Measure, Row, DealHands, DealtTiles, DeckAfterDeal;
    FreshInv(players, order, Initial(players, order, now).value);
  }

  // ---------------------------------------------------------------- main theorems

  /** Every run from every deal terminates: the version starts at 1, rises by one with each accepted input, and
      never exceeds 88, so at most 87 inputs are ever accepted. */
  lemma VersionBounded(players: seq<PlayerId>, order: seq<int>, now: int, inputs: seq<TimedInput>)
    requires Initial(players, order, now).Success?
    ensures 1 <= Run(Initial(players, order, now).value, inputs).version <= 88
  {
    var s := Initial(players, order, now).value;
    InitialSound(players, order, now);
    hide Initial, Inv, AllTiles, Measure;
    RunSound(order, s, inputs);
    MeasureAtLeastTwo(order, Run(s, inputs));
  }

  /** Everything the invariant says holds after any run from any deal; the tiles not on the table are exactly those
      lost by forfeiting turn players, so without a forfeit all 26 are there. */
  lemma ReachableSound(players: seq<PlayerId>, order: seq<int>, now: int, inputs: seq<TimedInput>)
    requires Initial(players, order, now).Success?
    ensures var s := Initial(players, order, now).value; var t := Run(s, inputs);
      && Inv(order, t) && Seated(t) && t.playerOrder == players
      && |AllTiles(t)| + |LostInRun(s, inputs)| == DECK_SIZE
  {
    var s := Initial(players, order, now).value;
    InitialSound(players, order, now);
    hide Initial, Inv, Measure, Ids, AllTiles;
    RunSound(order, s, inputs);
    var t := Run(s, inputs);
    InvSeated(order, t);
    var lost := LostInRun(s, inputs);
    assert |multiset(Ids(AllTiles(t))) + lost| == |multiset(Ids(AllTiles(t)))| + |lost|;
    assert |multiset(Ids(AllTiles(t)))| == |Ids(AllTiles(t))| == |AllTiles(t)|;
    assert |multiset(Ids(AllTiles(s)))| == |Ids(AllTiles(s))| == |AllTiles(s)|;
  }

  /** A table on which nothing but the clock moves is over within 89 deadlines. */
  lemma IdleTableFinishes(players: seq<PlayerId>, order: seq<int>, now: int, inputs: seq<TimedInput>)
    requires Initial(players, order, now).Success?
    requires |inputs| >= 89 && forall i | i in inputs :: i.input == ExpireInput
    ensures Run(Initial(players, order, now).value, inputs).phase == Finished
  {
    var s := Initial(players, order, now).value;
    InitialSound(players, order, now);
    hide Initial, Inv, AllTiles, Measure;
    ExpiriesFinish(order, s, inputs);
  }

  // ---------------------------------------------------------------- scores

  ghost function SumScores(s: State, players: seq<PlayerId>): int {
    if players == [] then 0 else ScoreOf(s, players[0]) + SumScores(s, players[1..])
  }

  lemma {:induction false} SumScoresSplit(s: State, players: seq<PlayerId>)
    requires forall p | p in players :: p in s.hands
    ensures SumScores(s, players) == SumHits(players, s.hits) + HiddenCount(Row(players, s.hands))
  {
    if players != [] {
      SumScoresSplit(s, players[1..]);
      HiddenConcat(s.hands[players[0]], Row(players[1..], s.hands));
    }
  }

  /** No table ever pays out more points than it has tiles: hits and hidden tiles together never exceed 26. */
  lemma ScoresAtMostTiles(players: seq<PlayerId>, order: seq<int>, now: int, inputs: seq<TimedInput>)
    requires Initial(players, order, now).Success?
    ensures SumScores(Run(Initial(players, order, now).value, inputs), players) <= DECK_SIZE
  {
    var t := Run(Initial(players, order, now).value, inputs);
    ReachableSound(players, order, now, inputs);
    hide Initial, Run, Genuine, Ordered, HiddenTiles;
    SumScoresSplit(t, players);
  }
}
