/** Da Vinci Code: what one viewer is sent, and how little it tells. */
module DavinciView {
  import opened Wrappers
  import opened DavinciState

  /** `number` is None when it is kept from the viewer. */
  datatype TileView = TileView(id: nat, color: Color, number: Option<int>, revealed: bool)

  datatype View = View(
    version: int, phase: Phase, playerOrder: seq<PlayerId>, turnPlayerId: PlayerId,
    hands: map<PlayerId, seq<TileView>>, deckCount: nat, drawn: Option<TileView>, turn: int,
    eliminated: seq<PlayerId>, winnerId: Option<PlayerId>, hits: map<PlayerId, int>,
    lastInputSeq: map<PlayerId, int>, nextActionAt: int, lastEvent: Option<Event>)

  predicate Visible(tile: Tile, mine: bool, over: bool) {
    tile.revealed || mine || over
  }

  function ViewTile(tile: Tile, mine: bool, over: bool): TileView {
    TileView(tile.id, tile.face.color, if Visible(tile, mine, over) then Some(tile.face.number) else None, tile.revealed)
  }

  function ViewHand(hand: seq<Tile>, mine: bool, over: bool): (v: seq<TileView>)
    ensures |v| == |hand|
  {
    seq(|hand|, i requires 0 <= i < |hand| => ViewTile(hand[i], mine, over))
  }

  /** `viewer` is None for a screen that belongs to no player. */
  function ToView(state: State, viewer: Option<PlayerId>): View {
    var over := state.phase == Finished;
    View(state.version, state.phase, state.playerOrder, state.turnPlayerId,
         map p | p in state.hands :: ViewHand(state.hands[p], Some(p) == viewer, over),
         |state.deck|,
         if state.drawn.None? then None else Some(ViewTile(state.drawn.value, Some(state.turnPlayerId) == viewer, over)),
         state.turn, state.eliminated, state.winnerId, state.hits, state.lastInputSeq, state.nextActionAt, state.lastEvent)
  }

  /** The source's loop over the hands. */
  method BuildView(state: State, viewer: Option<PlayerId>) returns (view: View)
    ensures view == ToView(state, viewer)
  {
    var over := state.phase == Finished;
    var hands: map<PlayerId, seq<TileView>> := map[];
    var todo := state.hands.Keys;
    while todo != {}
      invariant todo <= state.hands.Keys
      invariant hands.Keys == state.hands.Keys - todo
      invariant forall p | p in hands :: hands[p] == ViewHand(state.hands[p], Some(p) == viewer, over)
      decreases |todo|
    {
      var p :| p in todo;
      hands := hands[p := ViewHand(state.hands[p], Some(p) == viewer, over)];
      todo := todo - {p};
    }
    assert hands == ToView(state, viewer).hands;
    view := View(state.version, state.phase, state.playerOrder, state.turnPlayerId, hands, |state.deck|,
                 if state.drawn.None? then None
                 else Some(ViewTile(state.drawn.value, Some(state.turnPlayerId) == viewer, over)),
                 state.turn, state.eliminated, state.winnerId, state.hits, state.lastInputSeq, state.nextActionAt,
                 state.lastEvent);
  }

  // ---------------------------------------------------------------- what a viewer may know

  /** Two tiles a viewer cannot tell apart: same back and id, and the same number if it is theirs to see. */
  ghost predicate LooksAlike(a: Tile, b: Tile, mine: bool) {
    && a.id == b.id && a.face.color == b.face.color && a.revealed == b.revealed
    && (a.revealed || mine ==> a.face.number == b.face.number)
  }

  ghost predicate HandsAlike(a: seq<Tile>, b: seq<Tile>, mine: bool) {
    |a| == |b| && forall i | 0 <= i < |a| :: LooksAlike(a[i], b[i], mine)
  }

  /** Two states that differ only in the deck's contents and in hidden numbers that are not the viewer's. */
  ghost predicate SameToViewer(s: State, t: State, viewer: Option<PlayerId>) {
    && t == s.(hands := t.hands, deck := t.deck, drawn := t.drawn)
    && |s.deck| == |t.deck|
    && s.hands.Keys == t.hands.Keys
    && (forall p | p in s.hands :: HandsAlike(s.hands[p], t.hands[p], Some(p) == viewer))
    && (s.drawn.Some? <==> t.drawn.Some?)
    && (s.drawn.Some? ==> LooksAlike(s.drawn.value, t.drawn.value, Some(s.turnPlayerId) == viewer))
  }

  lemma TileViewsEqual(a: Tile, b: Tile, mine: bool)
    ensures ViewTile(a, mine, false) == ViewTile(b, mine, false) <==> LooksAlike(a, b, mine)
  {
  }

  lemma HandViewsEqual(a: seq<Tile>, b: seq<Tile>, mine: bool)
    ensures ViewHand(a, mine, false) == ViewHand(b, mine, false) <==> HandsAlike(a, b, mine)
  {
    var va, vb := ViewHand(a, mine, false), ViewHand(b, mine, false);
    if va == vb {
      forall i | 0 <= i < |a| ensures LooksAlike(a[i], b[i], mine) {
        assert va[i] == vb[i];
        TileViewsEqual(a[i], b[i], mine);
      }
    }
    if HandsAlike(a, b, mine) {
      forall i | 0 <= i < |a| ensures va[i] == vb[i] {
        TileViewsEqual(a[i], b[i], mine);
      }
    }
  }

  /** While the game is on, a view says exactly what its viewer may know: two states give the same view if and only
      if they agree on everything but hidden numbers that are not the viewer's and what is left in the deck. */
  lemma ViewTellsNothingHidden(s: State, t: State, viewer: Option<PlayerId>)
    requires s.phase != Finished
    ensures ToView(s, viewer) == ToView(t, viewer) <==> SameToViewer(s, t, viewer)
  {
    var vs, vt := ToView(s, viewer), ToView(t, viewer);
    HandsOfView(s, viewer);
    hide ViewHand, ViewTile, LooksAlike, HandsAlike;
    if vs == vt {
      HandsOfView(t, viewer);
      forall p | p in s.hands ensures p in t.hands && HandsAlike(s.hands[p], t.hands[p], Some(p) == viewer) {
        assert p in vs.hands && p in vt.hands;
        HandViewsEqual(s.hands[p], t.hands[p], Some(p) == viewer);
      }
      forall p | p in t.hands ensures p in s.hands { assert p in vt.hands; }
    }
    if SameToViewer(s, t, viewer) {
      HandsOfView(t, viewer);
      forall p | p in s.hands ensures vs.hands[p] == vt.hands[p] {
        HandViewsEqual(s.hands[p], t.hands[p], Some(p) == viewer);
      }
      assert vs.hands == vt.hands;
    }
    if s.drawn.Some? && t.drawn.Some? {
      TileViewsEqual(s.drawn.value, t.drawn.value, Some(s.turnPlayerId) == viewer);
    }
  }

  lemma HandsOfView(s: State, viewer: Option<PlayerId>)
    requires s.phase != Finished
    ensures ToView(s, viewer).hands.Keys == s.hands.Keys
    ensures forall p | p in s.hands :: ToView(s, viewer).hands[p] == ViewHand(s.hands[p], Some(p) == viewer, false)
  {
  }

  /** What a tile shows: its back, its place in the shuffle and whether it lies open; its number if it is open, one's own, or the game is over. */
  ghost predicate Shows(t: Tile, mine: bool, over: bool, v: TileView) {
    && v.id == t.id && v.color == t.face.color && v.revealed == t.revealed
    && v.number == if t.revealed || mine || over then Some(t.face.number) else None
  }

  /** Tile by tile and field by field, at any time of the game. */
  lemma ViewShows(s: State, viewer: Option<PlayerId>)
    ensures var v := ToView(s, viewer); var over := s.phase == Finished;
      && v.version == s.version && v.phase == s.phase && v.playerOrder == s.playerOrder && v.turnPlayerId == s.turnPlayerId
      && v.turn == s.turn && v.eliminated == s.eliminated && v.winnerId == s.winnerId && v.hits == s.hits
      && v.lastInputSeq == s.lastInputSeq && v.nextActionAt == s.nextActionAt && v.lastEvent == s.lastEvent
      && v.deckCount == |s.deck| && v.hands.Keys == s.hands.Keys
      && (forall p | p in s.hands :: |v.hands[p]| == |s.hands[p]|)
      && (forall p, i | p in s.hands && 0 <= i < |s.hands[p]| :: Shows(s.hands[p][i], viewer == Some(p), over, v.hands[p][i]))
      && (v.drawn.Some? <==> s.drawn.Some?)
      && (s.drawn.Some? ==> Shows(s.drawn.value, viewer == Some(s.turnPlayerId), over, v.drawn.value))
  {
  }

  ghost predicate AllRevealed(hand: seq<Tile>) {
    forall t | t in hand :: t.revealed
  }

  /** The player has nothing to hide: every tile of theirs, the drawn one included, lies open. */
  ghost predicate OwnOpen(s: State, p: PlayerId) {
    && (p in s.hands ==> AllRevealed(s.hands[p]))
    && (s.drawn.Some? && s.turnPlayerId == p ==> s.drawn.value.revealed)
  }

  lemma HandViewsAgree(hand: seq<Tile>)
    ensures ViewHand(hand, true, false) == ViewHand(hand, false, false) <==> AllRevealed(hand)
  {
    var mine, theirs := ViewHand(hand, true, false), ViewHand(hand, false, false);
    if mine == theirs {
      forall t | t in hand ensures t.revealed {
        var i :| 0 <= i < |hand| && hand[i] == t;
        assert mine[i] == theirs[i];
      }
    }
    if AllRevealed(hand) {
      assert forall i | 0 <= i < |hand| :: hand[i] in hand;
    }
  }

  lemma FinalHandsAgree(hand: seq<Tile>, mine: bool)
    ensures ViewHand(hand, mine, true) == ViewHand(hand, false, true)
  {
  }

  /** A player sees more than a screen nobody plays at exactly while the game is on and one of their own tiles is
      closed; in the end all are sent the same, with every number and no revealed mark changed. */
  lemma PlayerSeesMoreIff(s: State, p: PlayerId)
    ensures ToView(s, Some(p)) != ToView(s, None) <==> s.phase != Finished && !OwnOpen(s, p)
    ensures s.phase == Finished ==>
      forall q, i | q in s.hands && 0 <= i < |s.hands[q]| ::
        var v := ToView(s, Some(p)).hands[q][i];
        v.number == Some(s.hands[q][i].face.number) && v.revealed == s.hands[q][i].revealed
  {
    var own, screen := ToView(s, Some(p)), ToView(s, None);
    if s.phase == Finished {
      forall q | q in s.hands ensures own.hands[q] == screen.hands[q] {
        FinalHandsAgree(s.hands[q], q == p);
      }
      hide ViewHand;
      assert own.hands == screen.hands;
    } else {
      HandsOfView(s, Some(p));
      HandsOfView(s, None);
      if p in s.hands { HandViewsAgree(s.hands[p]); }
      hide ViewHand, AllRevealed;
      if OwnOpen(s, p) {
        assert own.hands == screen.hands;
      } else if p in s.hands && !AllRevealed(s.hands[p]) {
        assert own.hands[p] != screen.hands[p];
      }
    }
  }
}
