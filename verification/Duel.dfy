/** The sunset duel: signal, draw and the verdict of a round, over whole matches without a forfeit. */
module Duel {
  import opened Wrappers

  type PlayerId(==, !new)

  const MAX_HP := 3
  const MAX_FOULS := 2
  const FOUL := -1
  const MISS := -2
  const GRACE_MILLIS := 700
  const FREEZE_MILLIS := 2600
  const TIE_HOLD_MILLIS := 1650
  const RESULT_HOLD_MILLIS := 2150
  const KO_HOLD_MILLIS := 2900

  datatype Phase = Waiting | Signalled | Shown | Finished

  datatype Kind = Shot | Tie | Warning | SelfShot

  datatype Verdict = Verdict(
    number: int,
    kind: Kind,
    shooter: Option<PlayerId>,
    hit: Option<PlayerId>,
    ko: Option<PlayerId>,
    foul: Option<PlayerId>,
    over: bool,
    at: int
  )

  datatype State = State(
    version: int,
    phase: Phase,
    order: seq<PlayerId>,
    hp: map<PlayerId, int>,
    fouls: map<PlayerId, int>,
    reactions: map<PlayerId, int>,
    lastInputSeq: map<PlayerId, int>,
    round: int,
    signalAt: int,
    nextActionAt: int,
    lastRound: Option<Verdict>
  )

  datatype Error = RequiresTwoPlayers

  datatype Draw = Draw(playerId: PlayerId, inputSeq: int, reportedMs: real, now: int)

  function At(values: map<PlayerId, int>, p: PlayerId, fallback: int): int {
    if p in values then values[p] else fallback
  }

  function MaxOf(a: int, b: int): int {
    if a < b then b else a
  }

  function MinOf(a: int, b: int): int {
    if a < b then a else b
  }

  function Initial(players: seq<PlayerId>, now: int, wait: int): Result<State, Error> {
    if |players| != 2 then Failure(RequiresTwoPlayers)
    else
      Success(State(1, Waiting, players, map p | p in players :: MAX_HP, map p | p in players :: 0, map[],
                    map p | p in players :: -1, 1, 0, now + wait, None))
  }

  function Signal(s: State, now: int): State {
    if s.phase != Waiting then s
    else s.(version := s.version + 1, phase := Signalled, signalAt := now, nextActionAt := now + FREEZE_MILLIS, lastRound := None)
  }

  /** The faster clean draw wins; 0 is a tie. */
  function CompareDraw(a: int, b: int): int {
    if a >= 0 && b >= 0 then (if a == b then 0 else if a < b then 1 else 2)
    else if a >= 0 then 1
    else if b >= 0 then 2
    else 0
  }

  function Hold(v: Verdict): int {
    if v.over then KO_HOLD_MILLIS else if v.hit.None? then TIE_HOLD_MILLIS else RESULT_HOLD_MILLIS
  }

  /** Asked of the first side before the second. */
  function FoulSide(reactions: map<PlayerId, int>, first: PlayerId, second: PlayerId): Option<PlayerId> {
    if At(reactions, first, MISS) == FOUL then Some(first)
    else if At(reactions, second, MISS) == FOUL then Some(second)
    else None
  }

  datatype Outcome = Outcome(hp: map<PlayerId, int>, fouls: map<PlayerId, int>, verdict: Verdict)

  /** A first false start is a warning; the second shoots its own foot and loses. */
  function Penalty(s: State, foul: PlayerId, now: int): Outcome {
    var count := At(s.fouls, foul, 0) + 1;
    var fouls := s.fouls[foul := count];
    if count < MAX_FOULS then
      Outcome(s.hp, fouls, Verdict(s.round, Warning, None, None, None, Some(foul), false, now))
    else
      Outcome(s.hp[foul := MaxOf(0, At(s.hp, foul, 0) - 1)], fouls,
              Verdict(s.round, SelfShot, None, Some(foul), Some(foul), Some(foul), true, now))
  }

  function Shootout(s: State, reactions: map<PlayerId, int>, first: PlayerId, second: PlayerId, now: int): Outcome {
    var winner := CompareDraw(At(reactions, first, MISS), At(reactions, second, MISS));
    if winner == 0 then Outcome(s.hp, s.fouls, Verdict(s.round, Tie, None, None, None, None, false, now))
    else
      var shooter := if winner == 1 then first else second;
      var hit := if winner == 1 then second else first;
      var left := MaxOf(0, At(s.hp, hit, 0) - 1);
      Outcome(s.hp[hit := left], s.fouls,
              Verdict(s.round, Shot, Some(shooter), Some(hit), if left <= 0 then Some(hit) else None, None, left <= 0, now))
  }

  function Judged(s: State, reactions: map<PlayerId, int>, now: int): Outcome
    requires |s.order| == 2
  {
    var foul := FoulSide(reactions, s.order[0], s.order[1]);
    if foul.Some? then Penalty(s, foul.value, now) else Shootout(s, reactions, s.order[0], s.order[1], now)
  }

  function ResolveRound(s: State, lastInputSeq: map<PlayerId, int>, reactions: map<PlayerId, int>, now: int): State
    requires |s.order| == 2
  {
    var o := Judged(s, reactions, now);
    s.(version := s.version + 1, phase := Shown, hp := o.hp, fouls := o.fouls, reactions := reactions,
       lastInputSeq := lastInputSeq, nextActionAt := now + Hold(o.verdict), lastRound := Some(o.verdict))
  }

  /** Before the signal any draw is a false start; after it the claim is capped by the server's clock. */
  function Reaction(s: State, d: Draw): int {
    if s.phase == Waiting || d.reportedMs < 0.0 then FOUL
    else MaxOf(0, MinOf(d.reportedMs.Floor, MaxOf(0, d.now - s.signalAt)))
  }

  function DrawGun(s: State, d: Draw): State
    requires |s.order| == 2
  {
    if d.playerId !in s.order || d.inputSeq <= At(s.lastInputSeq, d.playerId, -1) then s
    else
      var seqs := s.lastInputSeq[d.playerId := d.inputSeq];
      if (s.phase != Waiting && s.phase != Signalled) || d.playerId in s.reactions then
        s.(version := s.version + 1, lastInputSeq := seqs)
      else
        var reactions := s.reactions[d.playerId := Reaction(s, d)];
        if reactions[d.playerId] == FOUL || |reactions| == |s.order| then ResolveRound(s, seqs, reactions, d.now)
        else
          s.(version := s.version + 1, reactions := reactions, lastInputSeq := seqs,
             nextActionAt := MinOf(s.nextActionAt, d.now + GRACE_MILLIS), lastRound := None)
  }

  function WithMisses(order: seq<PlayerId>, reactions: map<PlayerId, int>): map<PlayerId, int> {
    map p | p in reactions.Keys + (set q | q in order) :: if p in reactions then reactions[p] else MISS
  }

  method FillMisses(order: seq<PlayerId>, reactions: map<PlayerId, int>) returns (filled: map<PlayerId, int>)
    ensures filled == WithMisses(order, reactions)
  {
    filled := reactions;
    for i := 0 to |order|
      invariant forall p :: p in filled <==> p in reactions || p in order[..i]
      invariant forall p :: p in filled ==> filled[p] == if p in reactions then reactions[p] else MISS
    {
      if order[i] !in filled { filled := filled[order[i] := MISS]; }
    }
    assert order[..|order|] == order;
  }

  function Expire(s: State, now: int): State
    requires |s.order| == 2
  {
    if s.phase != Signalled then s else ResolveRound(s, s.lastInputSeq, WithMisses(s.order, s.reactions), now)
  }

  function NextRound(s: State, now: int, wait: int): State {
    if s.phase != Shown || s.lastRound.None? || s.lastRound.value.over then s
    else
      s.(version := s.version + 1, phase := Waiting, reactions := map[], round := s.round + 1, signalAt := 0,
         nextActionAt := now + wait, lastRound := None)
  }

  function Finish(s: State): State {
    if s.phase != Shown || s.lastRound.None? || !s.lastRound.value.over then s
    else s.(version := s.version + 1, phase := Finished, nextActionAt := 0)
  }

  // ---------------------------------------------------------------------------
  // Runs.

  datatype Input = SignalInput(now: int) | DrawInput(draw: Draw) | ExpireInput(now: int) | NextInput(now: int, wait: int) | FinishInput

  function Step(s: State, i: Input): State
    requires |s.order| == 2
  {
    match i
    case SignalInput(now) => Signal(s, now)
    case DrawInput(d) => DrawGun(s, d)
    case ExpireInput(now) => Expire(s, now)
    case NextInput(now, wait) => NextRound(s, now, wait)
    case FinishInput => Finish(s)
  }

  function Run(s: State, inputs: seq<Input>): (t: State)
    requires |s.order| == 2
    ensures t.order == s.order
    decreases |inputs|
  {
    if inputs == [] then s else Run(Step(s, inputs[0]), inputs[1..])
  }

  /** One of the kind if this step judged such a round. */
  function Judges(s: State, s': State, kind: Kind): nat {
    if s.phase != Shown && s'.phase == Shown && s'.lastRound.Some? && s'.lastRound.value.kind == kind then 1 else 0
  }

  /** How many rounds of a kind a run judged. */
  function Tally(s: State, inputs: seq<Input>, kind: Kind): nat
    requires |s.order| == 2
    decreases |inputs|
  {
    if inputs == [] then 0
    else Judges(s, Step(s, inputs[0]), kind) + Tally(Step(s, inputs[0]), inputs[1..], kind)
  }

  // ---------------------------------------------------------------------------
  // Invariant.

  predicate Over(s: State) {
    s.phase == Finished || (s.phase == Shown && s.lastRound.Some? && s.lastRound.value.over)
  }

  predicate Seated(s: State) {
    && |s.order| == 2 && s.order[0] != s.order[1]
    && s.order[0] in s.hp && s.order[1] in s.hp && s.order[0] in s.fouls && s.order[1] in s.fouls
  }

  /** Nobody is out before the match is over; then the one who is not out still stands. */
  predicate HealthOk(s: State)
    requires Seated(s)
  {
    && (forall p :: p in s.order ==> 0 <= s.hp[p] <= MAX_HP && 0 <= s.fouls[p] <= MAX_FOULS)
    && (!Over(s) ==> forall p :: p in s.order ==> s.hp[p] >= 1 && s.fouls[p] < MAX_FOULS)
    && (Over(s) ==>
          && s.lastRound.Some? && s.lastRound.value.ko.Some?
          && var ko := s.lastRound.value.ko.value;
          && ko in s.order
          && (forall p :: p in s.order && p != ko ==> s.hp[p] >= 1 && s.fouls[p] < MAX_FOULS)
          && (s.hp[ko] == 0 || s.fouls[ko] == MAX_FOULS)
          && (s.fouls[ko] == MAX_FOULS ==> s.hp[ko] < MAX_HP))
  }

  /** Only clean draws wait for the other side, and before the signal none do. */
  predicate ReactionsOk(s: State)
    requires |s.order| == 2
  {
    && (s.phase == Waiting ==> s.reactions == map[])
    && (s.phase == Signalled ==>
          || s.reactions == map[]
          || (exists p :: p in s.order && s.reactions.Keys == {p} && s.reactions[p] >= 0))
    && (s.phase == Shown ==> s.lastRound.Some?)
  }

  predicate Inv(s: State) {
    Seated(s) && HealthOk(s) && ReactionsOk(s)
  }

  function HpSum(s: State): int
    requires Seated(s)
  {
    s.hp[s.order[0]] + s.hp[s.order[1]]
  }

  function FoulSum(s: State): int
    requires Seated(s)
  {
    s.fouls[s.order[0]] + s.fouls[s.order[1]]
  }

  /** The players who shot their own foot. */
  function Feet(s: State): int
    requires Seated(s)
  {
    (if s.fouls[s.order[0]] == MAX_FOULS then 1 else 0) + (if s.fouls[s.order[1]] == MAX_FOULS then 1 else 0)
  }

  lemma PenaltySound(s: State, foul: PlayerId, now: int)
    requires Seated(s) && HealthOk(s) && !Over(s) && foul in s.order
    ensures var o := Penalty(s, foul, now);
            var s' := s.(phase := Shown, hp := o.hp, fouls := o.fouls, lastRound := Some(o.verdict));
            && Seated(s') && HealthOk(s')
            && o.verdict.kind in {Warning, SelfShot}
            && HpSum(s') == HpSum(s) - (if o.verdict.kind == SelfShot then 1 else 0)
            && FoulSum(s') == FoulSum(s) + 1
            && Feet(s') == Feet(s) + (if o.verdict.kind == SelfShot then 1 else 0)
  {
  }

  lemma ShootoutSound(s: State, reactions: map<PlayerId, int>, now: int)
    requires Seated(s) && HealthOk(s) && !Over(s)
    ensures var o := Shootout(s, reactions, s.order[0], s.order[1], now);
            var s' := s.(phase := Shown, hp := o.hp, fouls := o.fouls, lastRound := Some(o.verdict));
            && Seated(s') && HealthOk(s')
            && o.verdict.kind in {Shot, Tie}
            && HpSum(s') == HpSum(s) - (if o.verdict.kind == Shot then 1 else 0)
            && FoulSum(s') == FoulSum(s) && Feet(s') == Feet(s)
  {
  }

  /** The state with a verdict's books and nothing else changed. */
  function Booked(s: State, o: Outcome): State {
    s.(phase := Shown, hp := o.hp, fouls := o.fouls, lastRound := Some(o.verdict))
  }

  ghost predicate BooksFollow(s: State, s': State, kind: Kind)
    requires Seated(s) && Seated(s')
  {
    && HpSum(s') == HpSum(s) - (if kind in {Shot, SelfShot} then 1 else 0)
    && FoulSum(s') == FoulSum(s) + (if kind in {Warning, SelfShot} then 1 else 0)
    && Feet(s') == Feet(s) + (if kind == SelfShot then 1 else 0)
  }

  lemma JudgedSound(s: State, reactions: map<PlayerId, int>, now: int)
    requires Seated(s) && HealthOk(s) && !Over(s)
    ensures var o := Judged(s, reactions, now);
            Seated(Booked(s, o)) && HealthOk(Booked(s, o)) && BooksFollow(s, Booked(s, o), o.verdict.kind)
  {
    hide Penalty, Shootout, HealthOk;
    var foul := FoulSide(reactions, s.order[0], s.order[1]);
    if foul.Some? { PenaltySound(s, foul.value, now); } else { ShootoutSound(s, reactions, now); }
  }

  lemma ResolveSound(s: State, seqs: map<PlayerId, int>, reactions: map<PlayerId, int>, now: int)
    requires Seated(s) && HealthOk(s) && !Over(s)
    ensures var s' := ResolveRound(s, seqs, reactions, now);
            Inv(s') && s'.phase == Shown && BooksFollow(s, s', s'.lastRound.value.kind)
  {
    hide Judged;
    JudgedSound(s, reactions, now);
    var mid := Booked(s, Judged(s, reactions, now));
    SameBooks(mid, ResolveRound(s, seqs, reactions, now));
    hide HealthOk, HpSum, FoulSum, Feet;
  }

  lemma SameBooks(s: State, s': State)
    requires Seated(s) && HealthOk(s)
    requires s' == s.(version := s'.version, reactions := s'.reactions, lastInputSeq := s'.lastInputSeq,
                      nextActionAt := s'.nextActionAt)
    ensures Seated(s') && HealthOk(s') && HpSum(s') == HpSum(s) && FoulSum(s') == FoulSum(s) && Feet(s') == Feet(s)
  {
  }

  /** What one step does to the books. */
  ghost predicate Balanced(s: State, s': State)
    requires Seated(s) && Seated(s')
  {
    && HpSum(s') == HpSum(s) - Judges(s, s', Shot) - Judges(s, s', SelfShot)
    && FoulSum(s') == FoulSum(s) + Judges(s, s', Warning) + Judges(s, s', SelfShot)
    && Feet(s') == Feet(s) + Judges(s, s', SelfShot)
  }

  lemma DrawSound(s: State, d: Draw)
    requires Inv(s)
    ensures Inv(DrawGun(s, d)) && Balanced(s, DrawGun(s, d))
  {
    hide ResolveRound;
    if d.playerId in s.order && d.inputSeq > At(s.lastInputSeq, d.playerId, -1)
       && (s.phase == Waiting || s.phase == Signalled) && d.playerId !in s.reactions {
      var seqs := s.lastInputSeq[d.playerId := d.inputSeq];
      var reactions := s.reactions[d.playerId := Reaction(s, d)];
      if reactions[d.playerId] == FOUL || |reactions| == |s.order| {
        ResolveSound(s, seqs, reactions, d.now);
      } else {
        OneWaits(s, d);
      }
    }
  }

  /** The first clean draw of a round is the only reaction on record. */
  lemma OneWaits(s: State, d: Draw)
    requires Inv(s) && (s.phase == Waiting || s.phase == Signalled)
    requires d.playerId in s.order && d.playerId !in s.reactions
    requires var reactions := s.reactions[d.playerId := Reaction(s, d)]; reactions[d.playerId] != FOUL && |reactions| != 2
    ensures s.phase == Signalled && Reaction(s, d) >= 0
    ensures s.reactions[d.playerId := Reaction(s, d)].Keys == {d.playerId}
  {
    SecondMakesTwo(s, d.playerId, Reaction(s, d));
  }

  lemma SecondMakesTwo(s: State, q: PlayerId, reaction: int)
    requires |s.order| == 2 && ReactionsOk(s) && (s.phase == Waiting || s.phase == Signalled) && q !in s.reactions
    ensures s.reactions != map[] ==> |s.reactions[q := reaction]| == 2
  {
    if s.reactions != map[] {
      var p :| p in s.order && s.reactions.Keys == {p} && s.reactions[p] >= 0;
      var reactions := s.reactions[q := reaction];
      assert reactions.Keys == {p, q};
      assert |reactions| == |reactions.Keys|;
    }
  }

  lemma ExpireSound(s: State, now: int)
    requires Inv(s)
    ensures Inv(Expire(s, now)) && Balanced(s, Expire(s, now))
  {
    hide ResolveRound;
    if s.phase == Signalled { ResolveSound(s, s.lastInputSeq, WithMisses(s.order, s.reactions), now); }
    hide HealthOk, HpSum, FoulSum, Feet;
  }

  lemma SignalSound(s: State, now: int)
    requires Inv(s)
    ensures Inv(Signal(s, now)) && Balanced(s, Signal(s, now))
  {
  }

  lemma NextRoundSound(s: State, now: int, wait: int)
    requires Inv(s)
    ensures Inv(NextRound(s, now, wait)) && Balanced(s, NextRound(s, now, wait))
  {
  }

  lemma FinishSound(s: State)
    requires Inv(s)
    ensures Inv(Finish(s)) && Balanced(s, Finish(s))
  {
  }

  lemma StepSound(s: State, i: Input)
    requires Inv(s)
    ensures Inv(Step(s, i)) && Balanced(s, Step(s, i))
  {
    hide DrawGun, Expire, Signal, NextRound, Finish, HealthOk, ReactionsOk, Balanced;
    match i
    case SignalInput(now) => SignalSound(s, now);
    case DrawInput(d) => DrawSound(s, d);
    case ExpireInput(now) => ExpireSound(s, now);
    case NextInput(now, wait) => NextRoundSound(s, now, wait);
    case FinishInput => FinishSound(s);
  }

  lemma {:induction false} RunSound(s: State, inputs: seq<Input>)
    requires Inv(s)
    ensures var t := Run(s, inputs);
            && Inv(t)
            && HpSum(t) == HpSum(s) - Tally(s, inputs, Shot) - Tally(s, inputs, SelfShot)
            && FoulSum(t) == FoulSum(s) + Tally(s, inputs, Warning) + Tally(s, inputs, SelfShot)
            && Feet(t) == Feet(s) + Tally(s, inputs, SelfShot)
    decreases |inputs|
  {
    hide Step, HealthOk, ReactionsOk;
    if inputs != [] {
      StepSound(s, inputs[0]);
      RunSound(Step(s, inputs[0]), inputs[1..]);
    }
  }

  lemma InitialInv(players: seq<PlayerId>, now: int, wait: int)
    requires Initial(players, now, wait).Success? && players[0] != players[1]
    ensures Inv(Initial(players, now, wait).value)
    ensures HpSum(Initial(players, now, wait).value) == 6 && FoulSum(Initial(players, now, wait).value) == 0
    ensures Feet(Initial(players, now, wait).value) == 0
  {
  }

  /**
   * Over every match of two different players without a forfeit: wounds are the
   * shots, warnings and self shots are the fouls, and at most seven rounds are
   * not ties.
   */
  lemma MatchIsAccounted(players: seq<PlayerId>, now: int, wait: int, inputs: seq<Input>)
    requires Initial(players, now, wait).Success? && players[0] != players[1]
    ensures
      var s := Initial(players, now, wait).value; var t := Run(s, inputs);
      var shots := Tally(s, inputs, Shot); var selfShots := Tally(s, inputs, SelfShot); var warnings := Tally(s, inputs, Warning);
      && Inv(t)
      && 6 - HpSum(t) == shots + selfShots
      && FoulSum(t) == warnings + selfShots
      && shots + selfShots + warnings <= 7
  {
    var s := Initial(players, now, wait).value;
    InitialInv(players, now, wait);
    RunSound(s, inputs);
    hide Inv, Run, Tally;
    RoundsBounded(Run(s, inputs), Tally(s, inputs, Shot), Tally(s, inputs, Warning), Tally(s, inputs, SelfShot));
  }

  /** A match ends by wounds, with two warnings at most, or by a foot, with one wound fewer. */
  lemma RoundsBounded(s: State, hits: nat, warnings: nat, selfShots: nat)
    requires Inv(s)
    requires HpSum(s) == 6 - hits - selfShots && FoulSum(s) == warnings + selfShots && Feet(s) == selfShots
    ensures hits + warnings + selfShots <= 7
  {
    if Over(s) {
      var ko := s.lastRound.value.ko.value;
      assert ko == s.order[0] || ko == s.order[1];
    }
  }

  /** The winner of a finished match still stands. */
  lemma WinnerStands(players: seq<PlayerId>, now: int, wait: int, inputs: seq<Input>, p: PlayerId)
    requires Initial(players, now, wait).Success? && players[0] != players[1] && p in players
    requires var t := Run(Initial(players, now, wait).value, inputs);
             t.phase == Finished && t.lastRound.Some? && t.lastRound.value.ko != Some(p)
    ensures var t := Run(Initial(players, now, wait).value, inputs); p in t.hp && t.hp[p] >= 1
  {
    hide HealthOk, ReactionsOk, Step;
    var s := Initial(players, now, wait).value;
    InitialInv(players, now, wait);
    RunSound(s, inputs);
    OtherStands(Run(s, inputs), p);
    hide Run, Inv, Initial;
  }

  lemma OtherStands(s: State, p: PlayerId)
    requires Inv(s) && s.phase == Finished && p in s.order && s.lastRound.Some? && s.lastRound.value.ko != Some(p)
    ensures p in s.hp && s.hp[p] >= 1
  {
  }

  /** A shot hits whoever drew slower, or did not draw cleanly when the other did; with neither nobody is hit. */
  lemma ShotHitsSlower(s: State, seqs: map<PlayerId, int>, reactions: map<PlayerId, int>, now: int, p: PlayerId, q: PlayerId)
    requires Seated(s) && HealthOk(s) && !Over(s)
    requires p in s.order && q in s.order && p != q && FoulSide(reactions, s.order[0], s.order[1]).None?
    ensures var v := ResolveRound(s, seqs, reactions, now).lastRound.value;
            var mine := At(reactions, p, MISS); var theirs := At(reactions, q, MISS);
            && (v.hit == Some(p) <==> theirs >= 0 && (mine < 0 || theirs < mine))
            && (v.hit == Some(p) ==> v.shooter == Some(q) && (v.ko == Some(p) <==> s.hp[p] == 1) && (v.over <==> s.hp[p] == 1))
  {
  }

  /** A claim after the signal counts at most the time the server saw pass, never less than nothing. */
  lemma ReactionIsCapped(s: State, d: Draw)
    ensures Reaction(s, d) == FOUL <==> s.phase == Waiting || d.reportedMs < 0.0
    ensures Reaction(s, d) != FOUL ==>
              && 0 <= Reaction(s, d) <= MaxOf(0, d.now - s.signalAt)
              && Reaction(s, d) as real <= d.reportedMs
  {
  }

  // ---------------------------------------------------------------------------
  // Neither side is favoured.

  function Swapped(s: State): State
    requires |s.order| == 2
  {
    s.(order := [s.order[1], s.order[0]])
  }

  predicate OneFoul(reactions: map<PlayerId, int>, first: PlayerId, second: PlayerId) {
    At(reactions, first, MISS) != FOUL || At(reactions, second, MISS) != FOUL
  }

  /** The order in which false starts are looked for shows exactly if both sides had one at once. */
  lemma FoulOrderShowsIff(reactions: map<PlayerId, int>, first: PlayerId, second: PlayerId)
    requires first != second
    ensures FoulSide(reactions, first, second) == FoulSide(reactions, second, first) <==> OneFoul(reactions, first, second)
  {
  }

  lemma ResolveSwapped(s: State, seqs: map<PlayerId, int>, reactions: map<PlayerId, int>, now: int)
    requires Seated(s) && OneFoul(reactions, s.order[0], s.order[1])
    ensures ResolveRound(Swapped(s), seqs, reactions, now) == Swapped(ResolveRound(s, seqs, reactions, now))
  {
    JudgedSwapped(s, reactions, now);
    hide Judged;
  }

  lemma JudgedSwapped(s: State, reactions: map<PlayerId, int>, now: int)
    requires Seated(s) && OneFoul(reactions, s.order[0], s.order[1])
    ensures Judged(Swapped(s), reactions, now) == Judged(s, reactions, now)
  {
    FoulOrderShowsIff(reactions, s.order[0], s.order[1]);
    var foul := FoulSide(reactions, s.order[0], s.order[1]);
    hide FoulSide, Penalty, Shootout;
    if foul.None? { ShootoutSwapped(s, reactions, now); } else { PenaltySwapped(s, foul.value, now); }
  }

  lemma ShootoutSwapped(s: State, reactions: map<PlayerId, int>, now: int)
    requires Seated(s)
    ensures Shootout(Swapped(s), reactions, s.order[1], s.order[0], now) == Shootout(s, reactions, s.order[0], s.order[1], now)
  {
  }

  lemma PenaltySwapped(s: State, foul: PlayerId, now: int)
    requires Seated(s)
    ensures Penalty(Swapped(s), foul, now) == Penalty(s, foul, now)
  {
  }

  lemma MissesSwapped(s: State)
    requires |s.order| == 2
    ensures WithMisses(Swapped(s).order, s.reactions) == WithMisses(s.order, s.reactions)
  {
    assert forall p :: p in Swapped(s).order <==> p in s.order;
  }

  /** A second false start never meets a first one: the first already ended the round. */
  lemma DrawHasOneFoul(s: State, d: Draw)
    requires Inv(s) && (s.phase == Waiting || s.phase == Signalled) && d.playerId in s.order && d.playerId !in s.reactions
    ensures OneFoul(s.reactions[d.playerId := Reaction(s, d)], s.order[0], s.order[1])
  {
  }

  lemma ExpireHasOneFoul(s: State)
    requires Inv(s) && s.phase == Signalled
    ensures OneFoul(WithMisses(s.order, s.reactions), s.order[0], s.order[1])
  {
  }

  /** At every reachable state a step on the swapped sides is the swap of the step. */
  lemma StepSwapped(s: State, i: Input)
    requires Inv(s)
    ensures |Step(s, i).order| == 2 && Step(Swapped(s), i) == Swapped(Step(s, i))
  {
    hide DrawGun, ResolveRound, Reaction, HealthOk;
    match i
    case DrawInput(d) => DrawSwapped(s, d);
    case ExpireInput(now) =>
      if s.phase == Signalled {
        ExpireHasOneFoul(s);
        MissesSwapped(s);
        ResolveSwapped(s, s.lastInputSeq, WithMisses(s.order, s.reactions), now);
        ResolveOrder(s, s.lastInputSeq, WithMisses(s.order, s.reactions), now);
      }
    case _ =>
  }

  lemma DrawSwapped(s: State, d: Draw)
    requires Inv(s)
    ensures |DrawGun(s, d).order| == 2 && DrawGun(Swapped(s), d) == Swapped(DrawGun(s, d))
  {
    hide ResolveRound, Reaction;
    assert d.playerId in Swapped(s).order <==> d.playerId in s.order;
    if (s.phase == Waiting || s.phase == Signalled) && d.playerId in s.order && d.playerId !in s.reactions {
      DrawHasOneFoul(s, d);
      ResolveSwapped(s, s.lastInputSeq[d.playerId := d.inputSeq], s.reactions[d.playerId := Reaction(s, d)], d.now);
      ReactionSwapped(s, d);
    }
    hide Inv, OneFoul;
    ResolveOrder(s, s.lastInputSeq[d.playerId := d.inputSeq], s.reactions[d.playerId := Reaction(s, d)], d.now);
  }

  lemma ResolveOrder(s: State, seqs: map<PlayerId, int>, reactions: map<PlayerId, int>, now: int)
    requires |s.order| == 2
    ensures ResolveRound(s, seqs, reactions, now).order == s.order
  {
  }

  lemma ReactionSwapped(s: State, d: Draw)
    requires |s.order| == 2
    ensures Reaction(Swapped(s), d) == Reaction(s, d)
  {
  }

  lemma {:induction false} RunSwapped(s: State, inputs: seq<Input>)
    requires Inv(s)
    ensures Run(Swapped(s), inputs) == Swapped(Run(s, inputs))
    decreases |inputs|
  {
    hide Step, HealthOk, ReactionsOk;
    if inputs != [] {
      StepSwapped(s, inputs[0]);
      StepSound(s, inputs[0]);
      RunSwapped(Step(s, inputs[0]), inputs[1..]);
    }
  }

  /** Which player is named first never matters. */
  lemma SidesAreEqual(players: seq<PlayerId>, now: int, wait: int, inputs: seq<Input>)
    requires Initial(players, now, wait).Success? && players[0] != players[1]
    ensures var s := Initial(players, now, wait).value; var t := Initial([players[1], players[0]], now, wait).value;
            Run(t, inputs) == Swapped(Run(s, inputs))
  {
    var s := Initial(players, now, wait).value;
    InitialInv(players, now, wait);
    assert forall p :: p in [players[1], players[0]] <==> p in players;
    assert Initial([players[1], players[0]], now, wait).value == Swapped(s);
    RunSwapped(s, inputs);
  }
}
