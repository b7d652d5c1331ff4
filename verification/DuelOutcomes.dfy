/** The sunset duel: what every input does to a match, told of who drew when. */
module DuelOutcomes {
  import opened Wrappers
  import opened Duel

  // ---------------------------------------------------------------- the rules

  function Rival(s: State, p: PlayerId): PlayerId
    requires |s.order| == 2
  {
    if p == s.order[0] then s.order[1] else s.order[0]
  }

  /** A round is over and shown for so long; what it costs is said by the rules below. */
  ghost predicate Shows(s: State, v: Verdict, seqs: map<PlayerId, int>, reactions: map<PlayerId, int>, now: int, millis: int, s': State) {
    s' == s.(version := s.version + 1, phase := Shown, hp := s'.hp, fouls := s'.fouls, reactions := reactions,
             lastInputSeq := seqs, nextActionAt := now + millis, lastRound := Some(v))
  }

  /** The first false start of a match is a warning, the second a shot in the own foot and the end. */
  ghost predicate FoulRule(s: State, p: PlayerId, seqs: map<PlayerId, int>, reactions: map<PlayerId, int>, now: int, s': State)
    requires p in s.fouls && p in s.hp
  {
    && s'.fouls == s.fouls[p := s.fouls[p] + 1]
    && if s.fouls[p] == 0 then
         && s'.hp == s.hp
         && Shows(s, Verdict(s.round, Warning, None, None, None, Some(p), false, now), seqs, reactions, now, 1650, s')
       else
         && s'.hp == s.hp[p := s.hp[p] - 1]
         && Shows(s, Verdict(s.round, SelfShot, None, Some(p), Some(p), Some(p), true, now), seqs, reactions, now, 2900, s')
  }

  /** One bullet hits; the last one ends the match. */
  ghost predicate ShotRule(
      s: State, shooter: PlayerId, hit: PlayerId, seqs: map<PlayerId, int>, reactions: map<PlayerId, int>, now: int, s': State)
    requires hit in s.hp
  {
    && s'.fouls == s.fouls && s'.hp == s.hp[hit := s.hp[hit] - 1]
    && if s.hp[hit] == 1 then
         Shows(s, Verdict(s.round, Shot, Some(shooter), Some(hit), Some(hit), None, true, now), seqs, reactions, now, 2900, s')
       else
         Shows(s, Verdict(s.round, Shot, Some(shooter), Some(hit), None, None, false, now), seqs, reactions, now, 2150, s')
  }

  ghost predicate TieRule(s: State, seqs: map<PlayerId, int>, reactions: map<PlayerId, int>, now: int, s': State) {
    && s'.fouls == s.fouls && s'.hp == s.hp
    && Shows(s, Verdict(s.round, Tie, None, None, None, None, false, now), seqs, reactions, now, 1650, s')
  }

  /** The whole milliseconds of the claim, but no more than the server saw pass since the signal. */
  predicate IsTime(t: int, claim: real, seen: int) {
    && t >= 0 && t as real <= claim && (t == 0 || t <= seen)
    && ((t + 1) as real > claim || t + 1 > seen)
  }

  /** Who draws first waits for the other; then the smaller time shoots. */
  ghost predicate CleanRule(s: State, d: Draw, t: int, seqs: map<PlayerId, int>, s': State)
    requires Seated(s) && d.playerId in s.order
  {
    var p, q := d.playerId, Rival(s, d.playerId);
    var reactions := s.reactions[p := t];
    if q !in s.reactions then
      s' == s.(version := s.version + 1, reactions := reactions, lastInputSeq := seqs, lastRound := None,
               nextActionAt := if d.now + 700 < s.nextActionAt then d.now + 700 else s.nextActionAt)
    else if t < s.reactions[q] then ShotRule(s, p, q, seqs, reactions, d.now, s')
    else if s.reactions[q] < t then ShotRule(s, q, p, seqs, reactions, d.now, s')
    else TieRule(s, seqs, reactions, d.now, s')
  }

  ghost predicate DrawRule(s: State, d: Draw, s': State)
    requires Seated(s)
  {
    var p := d.playerId;
    if p !in s.order || (p in s.lastInputSeq && d.inputSeq <= s.lastInputSeq[p]) || (p !in s.lastInputSeq && d.inputSeq < 0) then s' == s
    else
      var seqs := s.lastInputSeq[p := d.inputSeq];
      if s.phase == Shown || s.phase == Finished || p in s.reactions then
        s' == s.(version := s.version + 1, lastInputSeq := seqs)
      else if s.phase == Waiting || d.reportedMs < 0.0 then FoulRule(s, p, seqs, s.reactions[p := -1], d.now, s')
      else exists t | IsTime(t, d.reportedMs, d.now - s.signalAt) :: CleanRule(s, d, t, seqs, s')
  }

  /** Who has not drawn when the time is up is hit, unless nobody has. */
  ghost predicate ExpireRule(s: State, now: int, s': State)
    requires Seated(s)
  {
    var p, q := s.order[0], s.order[1];
    if s.phase != Signalled then s' == s
    else if p in s.reactions then ShotRule(s, p, q, s.lastInputSeq, s.reactions[q := -2], now, s')
    else if q in s.reactions then ShotRule(s, q, p, s.lastInputSeq, s.reactions[p := -2], now, s')
    else TieRule(s, s.lastInputSeq, s.reactions[p := -2][q := -2], now, s')
  }

  ghost predicate InputRule(s: State, i: Input, s': State)
    requires Seated(s)
  {
    match i
    case DrawInput(d) => DrawRule(s, d, s')
    case ExpireInput(now) => ExpireRule(s, now, s')
    case SignalInput(now) =>
      s' == if s.phase == Waiting
            then s.(version := s.version + 1, phase := Signalled, signalAt := now, nextActionAt := now + 2600, lastRound := None)
            else s
    case NextInput(now, wait) =>
      s' == if s.phase == Shown && s.lastRound.Some? && !s.lastRound.value.over
            then s.(version := s.version + 1, phase := Waiting, reactions := map[], round := s.round + 1, signalAt := 0,
                    nextActionAt := now + wait, lastRound := None)
            else s
    case FinishInput =>
      s' == if s.phase == Shown && s.lastRound.Some? && s.lastRound.value.over
            then s.(version := s.version + 1, phase := Phase.Finished, nextActionAt := 0)
            else s
  }

  // ---------------------------------------------------------------- the inputs follow them

  lemma FoulFollows(s: State, p: PlayerId, seqs: map<PlayerId, int>, now: int)
    requires Inv(s) && !Over(s) && p in s.order && p !in s.reactions
    requires forall q | q in s.reactions :: s.reactions[q] != FOUL
    ensures FoulRule(s, p, seqs, s.reactions[p := FOUL], now, ResolveRound(s, seqs, s.reactions[p := FOUL], now))
  {
  }

  lemma ShotFollows(s: State, seqs: map<PlayerId, int>, reactions: map<PlayerId, int>, now: int, p: PlayerId, q: PlayerId)
    requires Inv(s) && !Over(s) && p in s.order && q in s.order && p != q
    requires At(reactions, p, MISS) != FOUL && At(reactions, q, MISS) != FOUL
    ensures var s' := ResolveRound(s, seqs, reactions, now);
            var mine := At(reactions, p, MISS); var theirs := At(reactions, q, MISS);
            && (mine >= 0 && (theirs < 0 || mine < theirs) ==> ShotRule(s, p, q, seqs, reactions, now, s'))
            && (mine == theirs ==> TieRule(s, seqs, reactions, now, s'))
  {
  }

  lemma ReactionIsTime(s: State, d: Draw)
    requires s.phase != Waiting && d.reportedMs >= 0.0
    ensures IsTime(Reaction(s, d), d.reportedMs, d.now - s.signalAt)
  {
  }

  /** A clean draw's time is told by the claim and the clock alone: there is no other such time. */
  lemma OnlyTime(t: int, u: int, claim: real, seen: int)
    requires IsTime(t, claim, seen) && IsTime(u, claim, seen)
    ensures t == u
  {
  }

  /** A clean draw counts as claimed, rounded down, if the server saw that much time pass; else as the time it saw. */
  lemma ReactionIs(s: State, d: Draw)
    requires s.phase != Waiting && d.reportedMs >= 0.0
    ensures d.reportedMs.Floor <= d.now - s.signalAt ==> Reaction(s, d) == d.reportedMs.Floor
    ensures 0 <= d.now - s.signalAt < d.reportedMs.Floor ==> Reaction(s, d) == d.now - s.signalAt
    ensures d.now < s.signalAt ==> Reaction(s, d) == 0
  {
    ReactionIsTime(s, d);
  }

  lemma OnlyTheRival(s: State, p: PlayerId)
    requires Inv(s) && (s.phase == Waiting || s.phase == Signalled) && p in s.order && p !in s.reactions
    ensures var q := Rival(s, p);
      && q in s.order && q != p
      && (q !in s.reactions ==> s.reactions == map[])
      && (q in s.reactions ==> s.phase == Signalled && s.reactions.Keys == {q} && s.reactions[q] >= 0)
      && forall x | x in s.reactions :: s.reactions[x] != FOUL
  {
  }

  lemma CleanFollows(s: State, d: Draw)
    requires Inv(s) && s.phase == Signalled && d.playerId in s.order && d.playerId !in s.reactions
    requires d.inputSeq > At(s.lastInputSeq, d.playerId, -1) && d.reportedMs >= 0.0
    ensures CleanRule(s, d, Reaction(s, d), s.lastInputSeq[d.playerId := d.inputSeq], DrawGun(s, d))
  {
    var p, q, t := d.playerId, Rival(s, d.playerId), Reaction(s, d);
    var reactions := s.reactions[p := t];
    OnlyTheRival(s, p);
    ReactionIsTime(s, d);
    assert |s.order| == 2 && !Over(s);
    assert q in s.reactions ==> reactions.Keys == {p, q} && |reactions| == 2 by { assert |reactions| == |reactions.Keys|; }
    if q !in s.reactions { assert reactions == map[p := t]; }
    hide ResolveRound, Reaction;
    if q in s.reactions {
      ShotFollows(s, s.lastInputSeq[p := d.inputSeq], reactions, d.now, p, q);
      ShotFollows(s, s.lastInputSeq[p := d.inputSeq], reactions, d.now, q, p);
    }
    hide ShotRule, TieRule, Inv;
  }

  lemma DrawFollows(s: State, d: Draw)
    requires Inv(s)
    ensures DrawRule(s, d, DrawGun(s, d))
  {
    hide ResolveRound, Reaction, CleanRule, FoulRule, HealthOk;
    var p := d.playerId;
    if p in s.order && d.inputSeq > At(s.lastInputSeq, p, -1) && (s.phase == Waiting || s.phase == Signalled) && p !in s.reactions {
      if s.phase == Waiting || d.reportedMs < 0.0 {
        OnlyTheRival(s, p);
        FoulFollows(s, p, s.lastInputSeq[p := d.inputSeq], d.now);
        ReactionIsCapped(s, d);
      } else {
        CleanFollows(s, d);
        ReactionIsTime(s, d);
        hide DrawGun;
      }
    }
  }

  lemma ExpireFollows(s: State, now: int)
    requires Inv(s)
    ensures ExpireRule(s, now, Expire(s, now))
  {
    if s.phase == Signalled {
      var p, q := s.order[0], s.order[1];
      var reactions := WithMisses(s.order, s.reactions);
      assert p in s.reactions ==> reactions == s.reactions[q := MISS];
      assert q in s.reactions ==> reactions == s.reactions[p := MISS];
      assert p !in s.reactions && q !in s.reactions ==> reactions == s.reactions[p := MISS][q := MISS];
      assert At(reactions, p, MISS) != FOUL && At(reactions, q, MISS) != FOUL && !Over(s);
      hide ResolveRound, WithMisses, ShotRule, TieRule;
      ShotFollows(s, s.lastInputSeq, reactions, now, p, q);
      ShotFollows(s, s.lastInputSeq, reactions, now, q, p);
    }
  }

  /** In every reachable state each input does what the rules say, and nothing else. */
  lemma StepFollowsRules(s: State, i: Input)
    requires Inv(s)
    ensures InputRule(s, i, Step(s, i))
  {
    hide DrawGun, Expire, DrawRule, ExpireRule, HealthOk, ReactionsOk;
    match i
    case DrawInput(d) => DrawFollows(s, d);
    case ExpireInput(now) => ExpireFollows(s, now);
    case _ =>
  }

  /** So every match of two different players is played by them. */
  lemma MatchFollowsRules(players: seq<PlayerId>, now: int, wait: int, inputs: seq<Input>, i: Input)
    requires Initial(players, now, wait).Success? && players[0] != players[1]
    ensures var s := Run(Initial(players, now, wait).value, inputs); Seated(s) && InputRule(s, i, Step(s, i))
  {
    hide InputRule, Step, HealthOk, ReactionsOk, Seated;
    InitialInv(players, now, wait);
    RunSound(Initial(players, now, wait).value, inputs);
    StepFollowsRules(Run(Initial(players, now, wait).value, inputs), i);
  }

  /** A match starts with three bullets and no warning each, waiting for the signal. */
  lemma InitialFollows(players: seq<PlayerId>, now: int, wait: int)
    ensures Initial(players, now, wait).Success? <==> |players| == 2
    ensures |players| == 2 ==>
              var s := Initial(players, now, wait).value;
              && s.order == players && s.phase == Waiting && s.round == 1 && s.nextActionAt == now + wait && s.version == 1
              && s.hp.Keys == s.fouls.Keys == s.lastInputSeq.Keys == (set p | p in players)
              && (forall p | p in players :: s.hp[p] == 3 && s.fouls[p] == 0 && s.lastInputSeq[p] == -1)
              && s.reactions == map[] && s.lastRound.None?
  {
  }
}
