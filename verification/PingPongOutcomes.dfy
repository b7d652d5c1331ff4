/** Ping pong: what every input does to the table, told of the two players by name. */
module PingPongOutcomes {
  import opened Wrappers
  import opened PingPongCourt
  import opened PingPongRules

  // ---------------------------------------------------------------- the rules

  /** The player a ball flies to, and the one it flies away from. */
  function Defender(s: State, b: Ball): PlayerId
    requires |s.order| == 2
  {
    if b.direction.Towards? then s.order[0] else s.order[1]
  }

  function Opponent(s: State, p: PlayerId): PlayerId
    requires |s.order| == 2
  {
    if p == s.order[0] then s.order[1] else s.order[0]
  }

  /** Eleven points at least, and two more than the other. */
  predicate HasWon(mine: int, other: int) {
    mine >= 11 && mine >= other + 2
  }

  /** One point for the player; it ends the match or starts the countdown to the next serve. */
  ghost predicate PointFor(s: State, p: PlayerId, now: real, s': State)
    requires |s.order| == 2
  {
    var total := ScoreOf(s'.scores, s.order[0]) + ScoreOf(s'.scores, s.order[1]);
    var won := HasWon(ScoreOf(s'.scores, p), ScoreOf(s'.scores, Opponent(s, p)));
    && (forall q :: ScoreOf(s'.scores, q) == ScoreOf(s.scores, q) + if q == p then 1 else 0)
    && s' == s.(version := s.version + 1, ball := BallAt(s.ball, now), scores := s'.scores, phase := s'.phase,
                serveReceiver := s'.serveReceiver, nextActionAt := s'.nextActionAt, lastEvent := s'.lastEvent)
    && if won then
         s'.phase == Finished && s'.serveReceiver.None? && s'.nextActionAt == 0.0
         && s'.lastEvent == Event(s.version + 1, GameOver, Some(p), now)
       else
         && s'.phase == Countdown && s'.nextActionAt == now + 2600.0
         && s'.lastEvent == Event(s.version + 1, PointEvent, Some(p), now)
         && (total >= 0 ==>
               s'.serveReceiver == Some(s.order[if total < 20 then (if total % 4 < 2 then 0 else 1) else total % 2]))
  }

  /** A ball that was hit out or into the net costs who hit it; any other costs who did not return it. */
  ghost predicate ExpireRule(s: State, now: real, s': State)
    requires |s.order| == 2
  {
    if s.phase != Playing then s' == s
    else
      var missed := Defender(s, s.ball);
      PointFor(s, if s.ball.fault.Some? then missed else Opponent(s, missed), now, s')
  }

  /** The serve crosses the whole table towards the receiver, and is missed 1100 ms later. */
  ghost predicate ServeRule(s: State, now: real, targetX: real, s': State)
    requires |s.order| == 2
  {
    if s.phase != Countdown then s' == s
    else
      && s' == s.(version := s.version + 1, phase := Playing, ball := s'.ball, rally := 0, nextActionAt := now + 1100.0,
                  lastEvent := Event(s.version + 1, Served, s.serveReceiver, now))
      && s.serveReceiver == Some(Defender(s', s'.ball))
      && s'.ball == Ball(if s'.ball.direction.Towards? then 0.0 else 1.0, s'.ball.direction, 1.0, false, None, 0.0, 0.5, targetX, now)
  }

  /** Who has swung once may say they are ready; when both are, the countdown starts. */
  ghost predicate ReadyRule(s: State, p: PlayerId, now: real, s': State)
    requires |s.order| == 2
  {
    if s.phase != Preparing || p !in s.order || !(p in s.lastInputSeq && s.lastInputSeq[p] >= 0) || p in s.readyIds then s' == s
    else
      && s' == s.(version := s.version + 1, readyIds := s.readyIds + [p], phase := s'.phase, nextActionAt := s'.nextActionAt,
                  lastEvent := Event(s.version + 1, PlayerReady, Some(p), now))
      && if Opponent(s, p) in s.readyIds then s'.phase == Countdown && s'.nextActionAt == now + 2600.0
         else s'.phase == Preparing && s'.nextActionAt == 0.0
  }

  /** What a swing that meets the ball does to it. */
  function Struck(e: EventType): Option<(real, bool, Option<Fault>)> {
    match e
    case SmashReturn => Some((1.95, true, None))
    case NiceReturn => Some((1.0, false, None))
    case OkReturn => Some((0.82, false, None))
    case OutReturn => Some((1.0, false, Some(Out)))
    case NetReturn => Some((0.82, false, Some(Net)))
    case _ => None
  }

  /** The ball turns round where it is met, on its way to the given side of the table. */
  ghost predicate ReturnRule(s: State, here: Ball, e: EventType, i: SwingInput, s': State)
    requires Struck(e).Some?
  {
    var (speed, smash, fault) := Struck(e).value;
    && s'.ball == Ball(here.pos, Turned(here.direction), speed, smash, fault, 1.0 - Progress(here.pos, here.direction),
                       BallX(here), i.targetX, i.now)
    && s'.rally == s.rally + (if fault.None? then 1 else 0)
    && s'.nextActionAt == FlightDeadline(s'.ball, i.now)
    && s'.lastEvent == Event(s.version + 1, e, Some(i.playerId), i.now)
  }

  /** A swing counts once. Only the defender can meet the ball, while it can still be returned. */
  ghost predicate SwingRule(s: State, i: SwingInput, s': State)
    requires |s.order| == 2
  {
    var here := BallAt(s.ball, i.now);
    if i.playerId !in s.order || i.inputSeq <= LastSeq(s, i.playerId) then s' == s
    else
      && s' == s.(version := s.version + 1, lastInputSeq := s.lastInputSeq[i.playerId := i.inputSeq],
                  ball := s'.ball, rally := s'.rally, nextActionAt := s'.nextActionAt, lastEvent := s'.lastEvent)
      && if s.phase == Preparing then
           && s'.ball == s.ball && s'.rally == s.rally && s'.nextActionAt == 0.0
           && s'.lastEvent == Event(s.version + 1, Practice, Some(i.playerId), i.now)
         else if s.phase != Playing || s.ball.fault.Some? then
           s'.ball == s.ball && s'.rally == s.rally && s'.nextActionAt == s.nextActionAt && s'.lastEvent == s.lastEvent
         else
           var e := if i.playerId == s.order[0] then EventAt(0, here.pos) else EventAt(1, here.pos);
           if i.playerId == Defender(s, s.ball) && Struck(e).Some? then ReturnRule(s, here, e, i, s')
           else
             && s'.ball == here && s'.rally == s.rally && s'.nextActionAt == s.nextActionAt
             && s'.lastEvent == if i.playerId == Defender(s, s.ball) then Event(s.version + 1, e, Some(i.playerId), i.now) else s.lastEvent
  }

  ghost predicate InputRule(s: State, i: Input, s': State)
    requires |s.order| == 2
  {
    match i
    case ReadyInput(p, now) => ReadyRule(s, p, now, s')
    case SwingOf(swing) => SwingRule(s, swing, s')
    case ServeInput(now, x) => ServeRule(s, now, x, s')
    case ExpireInput(now) => ExpireRule(s, now, s')
  }

  // ---------------------------------------------------------------- the inputs follow them

  lemma PointFollows(s: State, scorer: int, now: real)
    requires TwoPlayers(s) && 0 <= scorer < 2
    ensures PointFor(s, s.order[scorer], now, Point(s, scorer, BallAt(s.ball, now), now))
  {
    hide BallAt, ServiceTurn;
    var s' := Point(s, scorer, BallAt(s.ball, now), now);
    var total := ScoreOf(s'.scores, s.order[0]) + ScoreOf(s'.scores, s.order[1]);
    if total >= 0 { TurnParity(total); }
  }

  lemma ExpireFollows(s: State, now: real)
    requires TwoPlayers(s)
    ensures ExpireRule(s, now, Expire(s, now))
  {
    hide Point, PointFor;
    if s.phase == Playing {
      PointFollows(s, 0, now);
      PointFollows(s, 1, now);
    }
  }

  lemma ServeFollows(s: State, now: real, targetX: real)
    requires TwoPlayers(s) && (s.phase == Countdown ==> s.serveReceiver.Some? && s.serveReceiver.value in s.order)
    ensures ServeRule(s, now, targetX, Serve(s, now, targetX))
  {
    assert Duration(0.0, 1.1, 1.0) == 1100.0 && Duration(1.0, 1.0 - 1.1, 1.0) == 1100.0;
    hide Duration;
  }

  lemma ReadyFollows(s: State, p: PlayerId, now: real)
    requires TwoPlayers(s)
    ensures ReadyRule(s, p, now, Ready(s, p, now))
  {
    if p in s.order {
      assert forall q :: q in s.order <==> q == p || q == Opponent(s, p);
      assert Opponent(s, p) in s.order;
    }
  }

  /** What meets the ball is told by the event: the band decides speed, smash and fault. */
  lemma BandDecides(seat: int, pos: real)
    requires seat == 0 || seat == 1
    ensures MissedWindow(seat, pos).None? <==> Struck(EventAt(seat, pos)).Some?
    ensures MissedWindow(seat, pos).Some? ==> EventAt(seat, pos) == MissedWindow(seat, pos).value
    ensures MissedWindow(seat, pos).None? ==>
              var fault := FaultOf(Distance(seat, pos), Early(seat, pos));
              var kind := ReturnKind(Distance(seat, pos), fault);
              EventAt(seat, pos) == kind.event && Struck(EventAt(seat, pos)) == Some((kind.speed, kind.smash, fault))
  {
    hide Distance, Early;
  }

  lemma JudgeFollows(s: State, noted: State, seat: int, i: SwingInput)
    requires TwoPlayers(s) && (seat == 0 || seat == 1) && s.order[seat] == i.playerId && s.phase == Playing && s.ball.fault.None?
    requires i.inputSeq > LastSeq(s, i.playerId)
    requires noted == s.(version := s.version + 1, lastInputSeq := s.lastInputSeq[i.playerId := i.inputSeq])
    ensures SwingRule(s, i, Judge(s, noted, seat, BallAt(s.ball, i.now), i))
  {
    var here := BallAt(s.ball, i.now);
    assert here.direction == s.ball.direction;
    hide BallAt, BallX, EventAt, MissedWindow, FaultOf, ReturnKind, Distance, Early, FlightDeadline;
    BandDecides(seat, here.pos);
  }

  lemma SwingFollows(s: State, i: SwingInput)
    requires TwoPlayers(s)
    ensures SwingRule(s, i, Swing(s, i))
  {
    hide Judge, BallAt, EventAt, ReturnRule;
    var seat := SeatOf(s.order, i.playerId);
    if seat >= 0 && i.inputSeq > LastSeq(s, i.playerId) && s.phase == Playing && s.ball.fault.None? {
      hide SwingRule;
      JudgeFollows(s, s.(version := s.version + 1, lastInputSeq := s.lastInputSeq[i.playerId := i.inputSeq]), seat, i);
    }
  }

  /** In every match each input does what the rules say, and nothing else. */
  lemma StepFollowsRules(s: State, i: Input)
    requires MatchOk(s)
    ensures InputRule(s, i, Step(s, i))
  {
    hide Ready, Swing, Serve, Expire, ReadyRule, SwingRule, ServeRule, ExpireRule;
    match i
    case ReadyInput(p, now) => ReadyFollows(s, p, now);
    case SwingOf(swing) => SwingFollows(s, swing);
    case ServeInput(now, x) => ServeFollows(s, now, x);
    case ExpireInput(now) => ExpireFollows(s, now);
  }

  lemma {:induction false} RunKeepsMatch(s: State, inputs: seq<Input>)
    requires MatchOk(s)
    ensures MatchOk(Run(s, inputs))
    decreases |inputs|
  {
    assert |s.order| == 2;
    hide MatchOk, Step;
    if inputs != [] {
      StepKeepsMatch(s, inputs[0]);
      RunKeepsMatch(Step(s, inputs[0]), inputs[1..]);
    }
  }

  /** From the first serve to the last point every match is played by the rules. */
  lemma MatchFollowsRules(players: seq<PlayerId>, now: real, inputs: seq<Input>, i: Input)
    requires Initial(players, now).Success? && players[0] != players[1]
    ensures var s := Run(Initial(players, now).value, inputs);
            InputRule(s, i, Step(s, i))
  {
    hide MatchOk, InputRule, Step;
    InitialMatch(players, now);
    RunKeepsMatch(Initial(players, now).value, inputs);
    StepFollowsRules(Run(Initial(players, now).value, inputs), i);
  }

  // ---------------------------------------------------------------- points

  /**
   * The point of a ball that nobody hit wrong goes to the other side than the one
   * it came to; the point of a fault goes to the side it was flying to.
   */
  lemma MissCostsDefender(s: State, seat: int, now: real)
    requires TwoPlayers(s) && s.phase == Playing && (seat == 0 || seat == 1) && Incoming(seat, s.ball)
    ensures var s' := Expire(s, now); var scorer := if s.ball.fault.None? then 1 - seat else seat;
            && s'.order == s.order
            && ScoreAt(s', scorer) == ScoreAt(s, scorer) + 1
            && ScoreAt(s', 1 - scorer) == ScoreAt(s, 1 - scorer)
  {
    ExpireFollows(s, now);
    hide Expire, BallAt;
  }

  /** Nobody has the better end for points either; only who receives next goes by the seats. */
  lemma ExpireMirrored(s: State, now: real)
    requires TwoPlayers(s)
    ensures |Expire(s, now).order| == 2
    ensures Expire(Mirror(s), now) == Mirror(Expire(s, now)).(serveReceiver := Expire(Mirror(s), now).serveReceiver)
  {
    hide BallAt, ServeReceiver;
    MirrorBallAt(s.ball, now);
  }

  /** A match starts without points, nobody ready, and the first player to receive. */
  lemma InitialFollows(players: seq<PlayerId>, now: real)
    ensures Initial(players, now).Success? <==> |players| == 2
    ensures |players| == 2 ==>
              var s := Initial(players, now).value;
              && s.order == players && s.phase == Preparing && s.readyIds == [] && s.version == 1 && s.nextActionAt == 0.0
              && s.scores.Keys == s.lastInputSeq.Keys == (set p | p in players)
              && (forall p | p in players :: s.scores[p] == 0 && s.lastInputSeq[p] == -1)
              && s.serveReceiver == Some(players[0]) && s.rally == 0 && s.ball.fault.None?
  {
  }
}
