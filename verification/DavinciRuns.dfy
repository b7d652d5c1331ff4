/** Da Vinci Code: one step whatever the input, and whole runs from any state that meets the invariant. */
module DavinciRuns {
  import opened Wrappers
  import opened DavinciState
  import opened DavinciRules
  import opened DavinciInvariant
  import opened DavinciSteps
  import opened DavinciTransitions

  // ---------------------------------------------------------------- one step

  /** Every input, whoever sends it: ignored, or the invariant is kept, the version rises by one and the measure falls. */
  lemma StepSound(order: seq<int>, s: State, i: TimedInput)
    requires Inv(order, s)
    ensures Seated(s) && IgnoredOrProgress(order, s, Step(s, i), Lost(s, i.input))
  {
    hide Inv, Guess, Decide, Place, Expire, Forfeit, IgnoredOrProgress, AllTiles, Measure, Survivors;
    InvSeated(order, s);
    match i.input
    case GuessInput(p, q, target, tile, number) => GuessSound(order, s, p, q, target, tile, number, i.now);
    case DecideInput(p, q, decision) => DecideSound(order, s, p, q, decision, i.now);
    case PlaceInput(p, q, index) => PlaceInputSound(order, s, p, q, index, i.now);
    case ExpireInput => ExpireIgnoredOrProgress(order, s, i.now);
    case ForfeitInput(p) => ForfeitSound(order, s, p, i.now);
  }

  lemma ExpireIgnoredOrProgress(order: seq<int>, s: State, now: int)
    requires Inv(order, s)
    ensures Seated(s) && IgnoredOrProgress(order, s, Expire(s, now), multiset{})
  {
    hide Inv, Expire, AllTiles, Measure;
    InvSeated(order, s);
    ExpireSound(order, s, now);
  }

  // ---------------------------------------------------------------- runs

  /** The tiles that left the table over a run, each the held tile of a turn player who forfeited. */
  ghost function LostInRun(s: State, inputs: seq<TimedInput>): multiset<nat>
    decreases |inputs|
  {
    if inputs == [] then multiset{} else Lost(s, inputs[0].input) + LostInRun(Step(s, inputs[0]), inputs[1..])
  }

  /** Over any run the version can rise only as far as the measure can fall, and no tile appears or is duplicated. */
  lemma {:induction false} RunSound(order: seq<int>, s: State, inputs: seq<TimedInput>)
    requires Inv(order, s)
    ensures var t := Run(s, inputs);
      && Inv(order, t) && t.playerOrder == s.playerOrder
      && t.version + Measure(t) <= s.version + Measure(s)
      && s.version <= t.version
      && multiset(Ids(AllTiles(t))) + LostInRun(s, inputs) == multiset(Ids(AllTiles(s)))
    decreases |inputs|
  {
    hide Inv, AllTiles, Measure, Step, Lost;
    InvSeated(order, s);
    if inputs != [] {
      StepSound(order, s, inputs[0]);
      RunSound(order, Step(s, inputs[0]), inputs[1..]);
      InvSeated(order, Step(s, inputs[0]));
    }
    InvSeated(order, Run(s, inputs));
  }

  lemma SurvivorHides(order: seq<int>, s: State) returns (p: PlayerId)
    requires Inv(order, s)
    ensures p in s.playerOrder && p !in s.eliminated && HiddenCount(s.hands[p]) > 0
  {
    hide Table, AllTiles;
    var alive := Survivors(s.playerOrder, s.eliminated);
    p := alive[0];
    assert p in alive;
  }

  lemma HandWithinTable(s: State, p: PlayerId)
    requires Seated(s) && p in s.playerOrder
    ensures HiddenCount(AllTiles(s)) >= HiddenCount(s.hands[p])
  {
    hide NoDuplicates, HiddenTiles;
    assert NoDuplicates(s.playerOrder);
    var before, after := RowUpdate(s.playerOrder, s.hands, p, s.hands[p]);
    RowCounts(before, s.hands[p], after);
    HiddenAllTiles(s);
  }

  lemma MeasureAtLeastTwo(order: seq<int>, s: State)
    requires Inv(order, s)
    ensures Seated(s) && Measure(s) >= 2
  {
    hide Inv, AllTiles, HiddenCount;
    InvSeated(order, s);
    var p := SurvivorHides(order, s);
    HandWithinTable(s, p);
  }

  /** A table nobody touches still ends: after as many expiries as the measure, the game is over. */
  lemma {:induction false} ExpiriesFinish(order: seq<int>, s: State, inputs: seq<TimedInput>)
    requires Inv(order, s) && Seated(s)
    requires forall i | i in inputs :: i.input == ExpireInput
    requires |inputs| >= Measure(s)
    ensures Run(s, inputs).phase == Finished
    decreases |inputs|
  {
    hide Inv, AllTiles, Measure, Expire;
    if s.phase == Finished {
      StaysFinished(s, inputs);
    } else {
      MeasureAtLeastTwo(order, s);
      ExpireSound(order, s, inputs[0].now);
      assert inputs[0] in inputs;
      assert Step(s, inputs[0]) == Expire(s, inputs[0].now);
      InvSeated(order, Step(s, inputs[0]));
      ExpiriesFinish(order, Step(s, inputs[0]), inputs[1..]);
    }
  }

  /** FINISHED is final: every later input returns the very same state. */
  lemma {:induction false} StaysFinished(s: State, inputs: seq<TimedInput>)
    requires s.phase == Finished
    ensures Run(s, inputs) == s
    decreases |inputs|
  {
    if inputs != [] {
      assert Step(s, inputs[0]) == s;
      StaysFinished(s, inputs[1..]);
    }
  }

  // ---------------------------------------------------------------- replayed inputs

  /** The number an input carries for the player who sent it; expiries and forfeits carry none. */
  function SeqOf(i: Input): Option<(PlayerId, int)> {
    match i
    case GuessInput(p, q, _, _, _) => Some((p, q))
    case DecideInput(p, q, _) => Some((p, q))
    case PlaceInput(p, q, _) => Some((p, q))
    case _ => None
  }

  lemma AdvanceKeepsSeq(s: State, now: int)
    ensures Advance(s, now).lastInputSeq == s.lastInputSeq
  {
    hide Survivors, SeekSurvivor, HiddenTiles;
  }

  lemma ConcludeKeepsSeq(s: State, faceUp: bool, index: int, now: int)
    ensures ConcludeTurn(s, faceUp, now).lastInputSeq == s.lastInputSeq
    ensures PlaceDrawn(s, index, now).lastInputSeq == s.lastInputSeq
  {
    hide HiddenTiles, InsertIndexOf, Reveal, InsertAt, Advance;
    forall t: State ensures Advance(t, now).lastInputSeq == t.lastInputSeq { AdvanceKeepsSeq(t, now); }
  }

  /** The state is as it was, or the number is above the last one recorded for the player and now recorded. */
  predicate Records(s: State, s': State, p: PlayerId, q: int) {
    s' == s || (s'.lastInputSeq == s.lastInputSeq[p := q] && q > At(s.lastInputSeq, p, -1))
  }

  lemma GuessRecords(s: State, p: PlayerId, q: int, target: PlayerId, tile: nat, number: int, now: int)
    ensures Records(s, Guess(s, p, q, target, tile, number, now), p, q)
  {
    hide ConcludeTurn, FindTile, Reveal, HiddenTiles, Survivors;
    ConcludeKeepsSeq(s.(lastInputSeq := s.lastInputSeq[p := q]), true, 0, now);
  }

  lemma DecideRecords(s: State, p: PlayerId, q: int, decision: Decision, now: int)
    ensures Records(s, Decide(s, p, q, decision, now), p, q)
  {
    hide ConcludeTurn;
    ConcludeKeepsSeq(s.(lastInputSeq := s.lastInputSeq[p := q]), false, 0, now);
  }

  lemma PlaceRecords(s: State, p: PlayerId, q: int, index: int, now: int)
    ensures Records(s, Place(s, p, q, index, now), p, q)
  {
    hide PlaceDrawn;
    ConcludeKeepsSeq(s.(lastInputSeq := s.lastInputSeq[p := q]), false, index, now);
  }

  lemma ExpireKeepsSeq(s: State, now: int)
    ensures Expire(s, now).lastInputSeq == s.lastInputSeq
  {
    hide ConcludeTurn, PlaceDrawn, Advance;
    ConcludeKeepsSeq(s, s.phase == Guessing, |HandOf(s, s.turnPlayerId)|, now);
    AdvanceKeepsSeq(s.(drawn := None), now);
  }

  lemma ForfeitKeepsSeq(s: State, p: PlayerId, now: int)
    ensures Forfeit(s, p, now).lastInputSeq == s.lastInputSeq
  {
    hide Survivors, RevealAll, Advance;
    forall t: State ensures Advance(t, now).lastInputSeq == t.lastInputSeq { AdvanceKeepsSeq(t, now); }
  }

  /** An input is ignored unless it is numbered above the last one recorded; taken, its number is recorded. */
  lemma StepRecordsSeq(s: State, i: TimedInput)
    ensures var s' := Step(s, i); var key := SeqOf(i.input);
      if key.None? then s'.lastInputSeq == s.lastInputSeq else Records(s, s', key.value.0, key.value.1)
  {
    hide Records, Guess, Decide, Place, Expire, Forfeit;
    match i.input
    case GuessInput(p, q, target, tile, number) => GuessRecords(s, p, q, target, tile, number, i.now);
    case DecideInput(p, q, decision) => DecideRecords(s, p, q, decision, i.now);
    case PlaceInput(p, q, index) => PlaceRecords(s, p, q, index, i.now);
    case ExpireInput => ExpireKeepsSeq(s, i.now);
    case ForfeitInput(p) => ForfeitKeepsSeq(s, p, i.now);
  }

  lemma {:induction false} RunKeepsSeq(s: State, inputs: seq<TimedInput>, p: PlayerId)
    ensures At(s.lastInputSeq, p, -1) <= At(Run(s, inputs).lastInputSeq, p, -1)
    decreases |inputs|
  {
    if inputs != [] {
      StepRecordsSeq(s, inputs[0]);
      hide Step;
      RunKeepsSeq(Step(s, inputs[0]), inputs[1..], p);
    }
  }

  /** An accepted input can never take effect again: however the game goes on, resending it, or anything numbered
      no higher by the same player, changes nothing. */
  lemma ReplayIgnored(s: State, i: TimedInput, between: seq<TimedInput>, again: TimedInput)
    requires Step(s, i) != s && SeqOf(i.input).Some? && SeqOf(again.input).Some?
    requires SeqOf(again.input).value.0 == SeqOf(i.input).value.0
    requires SeqOf(again.input).value.1 <= SeqOf(i.input).value.1
    ensures Step(Run(Step(s, i), between), again) == Run(Step(s, i), between)
  {
    StepRecordsSeq(s, i);
    RunKeepsSeq(Step(s, i), between, SeqOf(i.input).value.0);
    StepRecordsSeq(Run(Step(s, i), between), again);
  }
}
