/** Ping pong: ready, swing, serve and points, over whole matches. */
module PingPongRules {
  import opened Wrappers
  import opened PingPongCourt

  type PlayerId(==, !new)

  const WIN_SCORE := 11

  datatype Phase = Preparing | Countdown | Playing | Finished

  datatype Event = Event(id: int, kind: EventType, playerId: Option<PlayerId>, at: real)

  datatype State = State(
    version: int,
    phase: Phase,
    order: seq<PlayerId>,
    scores: map<PlayerId, int>,
    lastInputSeq: map<PlayerId, int>,
    readyIds: seq<PlayerId>,
    ball: Ball,
    rally: int,
    serveReceiver: Option<PlayerId>,
    nextActionAt: real,
    lastEvent: Event
  )

  datatype Error = RequiresTwoPlayers

  function ScoreOf(scores: map<PlayerId, int>, p: PlayerId): int {
    if p in scores then scores[p] else 0
  }

  function LastSeq(s: State, p: PlayerId): int {
    if p in s.lastInputSeq then s.lastInputSeq[p] else -1
  }

  function Initial(players: seq<PlayerId>, now: real): Result<State, Error> {
    if |players| != 2 then Failure(RequiresTwoPlayers)
    else
      Success(State(1, Preparing, players, map p | p in players :: 0, map p | p in players :: -1, [],
                    Ball(0.0, Towards, NORMAL_SPEED, false, None, 0.0, 0.5, 0.5, now),
                    0, Some(players[0]), 0.0, Event(1, ReadyEvent, Some(players[0]), now)))
  }

  function Ready(s: State, p: PlayerId, now: real): State {
    if s.phase != Preparing || p !in s.order || LastSeq(s, p) < 0 || p in s.readyIds then s
    else
      var readyIds := s.readyIds + [p];
      var everyone := forall q :: q in s.order ==> q in readyIds;
      s.(version := s.version + 1, phase := if everyone then Countdown else Preparing, readyIds := readyIds,
         nextActionAt := if everyone then now + POINT_COUNTDOWN_MILLIS else 0.0,
         lastEvent := Event(s.version + 1, PlayerReady, Some(p), now))
  }

  datatype SwingInput = SwingInput(playerId: PlayerId, inputSeq: int, now: real, targetX: real)

  /** The seat of the first match, or -1. */
  function SeatOf(order: seq<PlayerId>, p: PlayerId): int {
    if |order| > 0 && order[0] == p then 0 else if |order| > 1 && order[1] == p then 1 else -1
  }

  predicate Incoming(seat: int, b: Ball) {
    if seat == 0 then b.direction.Towards? else b.direction.Away?
  }

  function Returned(b: Ball, seat: int, now: real, targetX: real): Ball {
    var distance := Distance(seat, b.pos);
    var fault := FaultOf(distance, Early(seat, b.pos));
    var kind := ReturnKind(distance, fault);
    var direction := if seat == 0 then Away else Towards;
    Ball(b.pos, direction, kind.speed, kind.smash, fault, Progress(b.pos, direction), BallX(b), targetX, now)
  }

  function Swing(s: State, i: SwingInput): State {
    var seat := SeatOf(s.order, i.playerId);
    if seat < 0 || i.inputSeq <= LastSeq(s, i.playerId) then s
    else
      var noted := s.(version := s.version + 1, lastInputSeq := s.lastInputSeq[i.playerId := i.inputSeq]);
      if s.phase == Preparing then
        noted.(nextActionAt := 0.0, lastEvent := Event(s.version + 1, Practice, Some(i.playerId), i.now))
      else if s.phase != Playing || s.ball.fault.Some? then noted
      else
        Judge(s, noted, seat, BallAt(s.ball, i.now), i)
  }

  /** The ball where it was when the swing was made. */
  function Judge(s: State, noted: State, seat: int, current: Ball, i: SwingInput): State {
    if !Incoming(seat, current) then noted.(ball := current)
    else
      var missed := MissedWindow(seat, current.pos);
      if missed.Some? then
        noted.(ball := current, lastEvent := Event(s.version + 1, missed.value, Some(i.playerId), i.now))
      else
        var ball := Returned(current, seat, i.now, i.targetX);
        noted.(ball := ball, rally := if ball.fault.None? then s.rally + 1 else s.rally,
               nextActionAt := FlightDeadline(ball, i.now),
               lastEvent := Event(s.version + 1, EventAt(seat, current.pos), Some(i.playerId), i.now))
  }

  function ServeReceiver(order: seq<PlayerId>, scores: map<PlayerId, int>): PlayerId
    requires |order| == 2
  {
    order[ServiceTurn(ScoreOf(scores, order[0]) + ScoreOf(scores, order[1])) % 2]
  }

  /** Two points a turn up to ten all, then one. */
  function ServiceTurn(total: int): int {
    if total < 20 then total / 2 else 10 + (total - 20)
  }

  function Serve(s: State, now: real, targetX: real): State {
    if s.phase != Countdown then s
    else
      var receiver := if s.serveReceiver.Some? then SeatOf(s.order, s.serveReceiver.value) else -1;
      var direction := if receiver == 0 then Towards else Away;
      var ball := Ball(if direction.Towards? then 0.0 else 1.0, direction, NORMAL_SPEED, false, None, 0.0, 0.5, targetX, now);
      s.(version := s.version + 1, phase := Playing, ball := ball, rally := 0,
         nextActionAt := MissDeadline(ball, now),
         lastEvent := Event(s.version + 1, Served, s.serveReceiver, now))
  }

  function Expire(s: State, now: real): State
    requires |s.order| == 2
  {
    if s.phase != Playing then s
    else
      var ball := BallAt(s.ball, now);
      var scorer := if ball.fault.Some? then (if ball.direction.Away? then 1 else 0)
                    else if ball.direction.Towards? then 1 else 0;
      Point(s, scorer, ball, now)
  }

  predicate Wins(score: int, opponent: int) {
    score >= WIN_SCORE && score - opponent >= 2
  }

  function Point(s: State, scorer: int, ball: Ball, now: real): State
    requires |s.order| == 2 && 0 <= scorer < 2
  {
    var id := s.order[scorer];
    var scores := s.scores[id := ScoreOf(s.scores, id) + 1];
    var over := Wins(scores[id], ScoreOf(scores, s.order[1 - scorer]));
    s.(version := s.version + 1, phase := if over then Finished else Countdown, scores := scores, ball := ball,
       serveReceiver := if over then None else Some(ServeReceiver(s.order, scores)),
       nextActionAt := if over then 0.0 else now + POINT_COUNTDOWN_MILLIS,
       lastEvent := Event(s.version + 1, if over then GameOver else PointEvent, Some(id), now))
  }

  // ---------------------------------------------------------------------------
  // One swing.

  predicate TwoPlayers(s: State) {
    |s.order| == 2 && s.order[0] != s.order[1]
  }

  function Mirror(s: State): State
    requires |s.order| == 2
  {
    s.(order := [s.order[1], s.order[0]], ball := MirrorBall(s.ball))
  }

  /** Nobody has the better end: a swing on the mirrored court is the mirror of the swing. */
  lemma SwingMirrored(s: State, i: SwingInput)
    requires TwoPlayers(s)
    ensures |Swing(s, i).order| == 2
    ensures Swing(Mirror(s), i) == Mirror(Swing(s, i))
  {
    hide Judge, BallAt;
    var seat := SeatOf(s.order, i.playerId);
    MirrorBallAt(s.ball, i.now);
    if seat >= 0 {
      var noted := s.(version := s.version + 1, lastInputSeq := s.lastInputSeq[i.playerId := i.inputSeq]);
      JudgeMirrored(s, noted, seat, BallAt(s.ball, i.now), i);
    }
  }

  lemma JudgeMirrored(s: State, noted: State, seat: int, current: Ball, i: SwingInput)
    requires |noted.order| == 2 && (seat == 0 || seat == 1)
    ensures |Judge(s, noted, seat, current, i).order| == 2
    ensures |s.order| == 2 ==>
              Judge(Mirror(s), Mirror(noted), 1 - seat, MirrorBall(current), i)
              == Mirror(Judge(s, noted, seat, current, i))
  {
    hide Returned, FlightDeadline, EventAt, MissedWindow;
    MirrorReturned(current, seat, i.now, i.targetX);
    MirrorReturnedDeadline(current, seat, i.now, i.targetX);
  }

  lemma MirrorReturnedDeadline(b: Ball, seat: int, now: real, targetX: real)
    ensures FlightDeadline(MirrorBall(Returned(b, seat, now, targetX)), now) == FlightDeadline(Returned(b, seat, now, targetX), now)
  {
    MirrorDeadline(Returned(b, seat, now, targetX), now);
  }

  lemma MirrorReturned(b: Ball, seat: int, now: real, targetX: real)
    requires seat == 0 || seat == 1
    ensures Returned(MirrorBall(b), 1 - seat, now, targetX) == MirrorBall(Returned(b, seat, now, targetX))
    ensures MissedWindow(1 - seat, MirrorBall(b).pos) == MissedWindow(seat, b.pos)
    ensures EventAt(1 - seat, MirrorBall(b).pos) == EventAt(seat, b.pos)
  {
    MirrorBallAt(b, now);
    hide BallX;
  }

  lemma ServeMirrored(s: State, now: real, targetX: real)
    requires TwoPlayers(s) && (s.phase == Countdown ==> s.serveReceiver.Some? && s.serveReceiver.value in s.order)
    ensures Serve(Mirror(s), now, targetX) == Mirror(Serve(s, now, targetX))
  {
    hide Duration;
    MirrorDeadline(Ball(0.0, Towards, NORMAL_SPEED, false, None, 0.0, 0.5, targetX, now), now);
  }

  predicate Returns(s: State, i: SwingInput) {
    && s.phase == Playing && s.ball.fault.None?
    && SeatOf(s.order, i.playerId) >= 0 && i.inputSeq > LastSeq(s, i.playerId)
    && Incoming(SeatOf(s.order, i.playerId), s.ball)
    && MissedWindow(SeatOf(s.order, i.playerId), BallAt(s.ball, i.now).pos).None?
  }

  /** The ball is on its way for at least 482 ms after it was hit. */
  lemma FlightIsLong(b: Ball, seat: int, now: real, targetX: real)
    requires (seat == 0 || seat == 1) && MissedWindow(seat, b.pos).None?
    ensures FlightDeadline(Returned(b, seat, now, targetX), now) >= now + 482.0
  {
    var ball := Returned(b, seat, now, targetX);
    var way := Abs(FlightTarget(ball) - ball.pos);
    WayIsLong(b, seat, now, targetX);
    LongDuration(way, ball.speed);
  }

  lemma WayIsLong(b: Ball, seat: int, now: real, targetX: real)
    requires (seat == 0 || seat == 1) && MissedWindow(seat, b.pos).None?
    ensures var ball := Returned(b, seat, now, targetX);
            var way := Abs(FlightTarget(ball) - ball.pos);
            ball.speed > 0.0 && way >= 0.482 * ball.speed
  {
    hide BallX;
  }

  lemma LongDuration(way: real, speed: real)
    requires speed > 0.0 && way >= 0.482 * speed
    ensures way / speed * 1000.0 + 0.5 >= 482.0
  {
    assert way / speed >= 0.482;
  }

  /** A returned ball arrives at its deadline: at the far racket, the net, or off the table. */
  lemma ReturnArrives(b: Ball, seat: int, now: real, targetX: real)
    requires (seat == 0 || seat == 1) && MissedWindow(seat, b.pos).None?
    ensures var ball := Returned(b, seat, now, targetX);
            Abs(BallAt(ball, FlightDeadline(ball, now)).pos - FlightTarget(ball)) <= 0.0005 * ball.speed
  {
    var ball := Returned(b, seat, now, targetX);
    WayIsLong(b, seat, now, targetX);
    FliesAhead(b, seat, now, targetX);
    hide Returned;
    DeadlineMeetsTarget(ball);
  }

  lemma FliesAhead(b: Ball, seat: int, now: real, targetX: real)
    requires (seat == 0 || seat == 1) && MissedWindow(seat, b.pos).None?
    ensures var ball := Returned(b, seat, now, targetX); Ahead(ball, FlightTarget(ball)) && ball.launchedAt == now
  {
    hide BallX;
  }

  /** However far a swing is rolled back, the deadline of an accepted return lies ahead of its arrival. */
  lemma ReturnDeadlineAhead(s: State, p: PlayerId, inputSeq: int, arrival: real, clientTs: real, targetX: real)
    requires TwoPlayers(s)
    requires Returns(s, SwingInput(p, inputSeq, JudgedAt(arrival, clientTs), targetX))
    ensures Swing(s, SwingInput(p, inputSeq, JudgedAt(arrival, clientTs), targetX)).nextActionAt >= arrival + 362.0
    ensures JudgedAt(arrival, clientTs) <= arrival
  {
    var now := JudgedAt(arrival, clientTs);
    FlightIsLong(BallAt(s.ball, now), SeatOf(s.order, p), now, targetX);
    hide Returned, FlightDeadline;
  }

  /**
   * A swing that does not return the ball leaves its line as it was if and only
   * if it is judged no earlier than the ball's launch.
   */
  lemma UnreturnedKeepsLineIff(s: State, i: SwingInput)
    requires s.ball.speed > 0.0 && s.phase == Playing && s.ball.fault.None? && !Returns(s, i)
    requires SeatOf(s.order, i.playerId) >= 0 && i.inputSeq > LastSeq(s, i.playerId)
    ensures Swing(s, i).nextActionAt == s.nextActionAt
    ensures (forall t :: t > i.now ==> BallAt(Swing(s, i).ball, t) == BallAt(s.ball, t)) <==> i.now >= s.ball.launchedAt
  {
    assert Swing(s, i).ball == BallAt(s.ball, i.now);
    forall t | t > i.now
      ensures BallAt(BallAt(s.ball, i.now), t) == BallAt(s.ball, t) <==> i.now >= s.ball.launchedAt
    {
      BallAtComposesIff(s.ball, i.now, t);
    }
    hide BallAt;
    if i.now < s.ball.launchedAt {
      assert BallAt(Swing(s, i).ball, i.now + 1.0) != BallAt(s.ball, i.now + 1.0);
    }
  }

  // ---------------------------------------------------------------------------
  // Whole matches.

  datatype Input =
    | ReadyInput(playerId: PlayerId, now: real)
    | SwingOf(swing: SwingInput)
    | ServeInput(now: real, targetX: real)
    | ExpireInput(now: real)

  function Step(s: State, i: Input): (t: State)
    requires |s.order| == 2
    ensures t.order == s.order
  {
    match i
    case ReadyInput(p, now) => Ready(s, p, now)
    case SwingOf(swing) => Swing(s, swing)
    case ServeInput(now, x) => Serve(s, now, x)
    case ExpireInput(now) => Expire(s, now)
  }

  function Run(s: State, inputs: seq<Input>): (t: State)
    requires |s.order| == 2
    ensures t.order == s.order
    decreases |inputs|
  {
    if inputs == [] then s else Run(Step(s, inputs[0]), inputs[1..])
  }

  /** A first rally: practice and ready on both sides, then the serve when the countdown ends. */
  function FirstRally(p: PlayerId, q: PlayerId): seq<Input> {
    [ SwingOf(SwingInput(p, 0, 100.0, 0.5)), SwingOf(SwingInput(q, 0, 200.0, 0.5)),
      ReadyInput(p, 300.0), ReadyInput(q, 400.0), ServeInput(400.0 + POINT_COUNTDOWN_MILLIS, 0.5) ]
  }

  function Opening(p: PlayerId, q: PlayerId): State {
    Initial([p, q], 0.0).value
  }

  lemma RunCons(s: State, i: Input, rest: seq<Input>)
    requires |s.order| == 2
    ensures Run(s, [i] + rest) == Run(Step(s, i), rest)
  {
    assert ([i] + rest)[1..] == rest;
    hide Step;
  }

  lemma RunTwo(s: State, a: Input, b: Input, rest: seq<Input>)
    requires |s.order| == 2
    ensures Run(s, [a, b] + rest) == Run(Step(Step(s, a), b), rest)
  {
    hide Step, Run;
    RunCons(s, a, [b] + rest);
    RunCons(Step(s, a), b, rest);
    assert [a] + ([b] + rest) == [a, b] + rest;
  }

  lemma RunOfFive(s: State, a: Input, b: Input, c: Input, d: Input, e: Input)
    requires |s.order| == 2
    ensures Run(s, [a, b, c, d, e]) == Step(Step(Step(Step(Step(s, a), b), c), d), e)
  {
    var s' := Step(Step(s, a), b);
    assert Run(Step(Step(Step(s', c), d), e), []) == Step(Step(Step(s', c), d), e);
    hide Step, Run;
    RunTwo(s, a, b, [c, d, e]);
    RunTwo(s', c, d, [e]);
    RunCons(Step(Step(s', c), d), e, []);
    assert [a, b] + [c, d, e] == [a, b, c, d, e] && [c, d] + [e] == [c, d, e] && [e] + [] == [e];
  }

  /** Two practice swings and both players ready. */
  lemma BothReady(p: PlayerId, q: PlayerId)
    requires p != q
    ensures var s := Step(Step(Opening(p, q), FirstRally(p, q)[0]), FirstRally(p, q)[1]);
            var s' := Step(Step(s, FirstRally(p, q)[2]), FirstRally(p, q)[3]);
            && s'.order == [p, q] && s'.phase == Countdown && s'.serveReceiver == Some(p) && LastSeq(s', p) == 0
            && s'.nextActionAt == FirstRally(p, q)[4].now
  {
    hide Judge, Serve, Expire;
    var s1 := Step(Opening(p, q), FirstRally(p, q)[0]);
    var s2 := Step(s1, FirstRally(p, q)[1]);
    assert LastSeq(s2, p) == 0 && LastSeq(s2, q) == 0 && s2.phase == Preparing && s2.readyIds == [];
    var s3 := Step(s2, FirstRally(p, q)[2]);
    assert q in s3.order && q !in s3.readyIds;
    assert s3.phase == Preparing && s3.readyIds == [p];
  }

  lemma RallyStarts(p: PlayerId, q: PlayerId)
    requires p != q
    ensures var s := Run(Opening(p, q), FirstRally(p, q));
            && s.order == [p, q] && s.phase == Playing && LastSeq(s, p) == 0
            && s.ball == Ball(0.0, Towards, NORMAL_SPEED, false, None, 0.0, 0.5, 0.5, 3000.0)
  {
    var i := FirstRally(p, q);
    var s0 := Opening(p, q);
    BothReady(p, q);
    RunOfFive(s0, i[0], i[1], i[2], i[3], i[4]);
    hide Run, Swing, Ready, Expire, MissDeadline, Opening;
    assert i == [i[0], i[1], i[2], i[3], i[4]];
  }

  /**
   * It happens: a swing that reaches the server 50 ms after the serve with a
   * stamp 70 ms before it misses, and yet puts the ball ahead of its line.
   */
  lemma MissedSwingMovesBall(p: PlayerId, q: PlayerId)
    requires p != q
    ensures var s := Run(Opening(p, q), FirstRally(p, q));
            var i := SwingInput(p, 1, JudgedAt(3050.0, 2930.0), 0.5);
            && s.phase == Playing && !Returns(s, i) && i.now < s.ball.launchedAt
            && Swing(s, i) != s && Swing(s, i).nextActionAt == s.nextActionAt
            && BallAt(s.ball, 3200.0).pos == 0.2 && BallAt(Swing(s, i).ball, 3200.0).pos == 0.27
  {
    RallyStarts(p, q);
    hide Run, Returned, EventAt;
  }

  /** The serves a player receives in a run. */
  function Received(s: State, inputs: seq<Input>, p: PlayerId): nat
    requires |s.order| == 2
    decreases |inputs|
  {
    if inputs == [] then 0
    else
      (if inputs[0].ServeInput? && s.phase == Countdown && s.serveReceiver == Some(p) then 1 else 0)
      + Received(Step(s, inputs[0]), inputs[1..], p)
  }

  function ScoreAt(s: State, seat: int): int
    requires |s.order| == 2 && 0 <= seat < 2
  {
    ScoreOf(s.scores, s.order[seat])
  }

  function Points(s: State): int
    requires |s.order| == 2
  {
    ScoreAt(s, 0) + ScoreAt(s, 1)
  }

  /** Eleven against at most nine, or two ahead from ten all. */
  predicate FinalScore(winner: int, loser: int) {
    (winner == 11 && 0 <= loser <= 9) || (loser >= 10 && winner == loser + 2)
  }

  /** What the result service accepts. */
  predicate ValidFinalScore(a: int, b: int) {
    a >= 0 && b >= 0 && (a >= WIN_SCORE || b >= WIN_SCORE) && (a - b >= 2 || b - a >= 2)
  }

  predicate MatchOk(s: State) {
    && TwoPlayers(s)
    && ScoreAt(s, 0) >= 0 && ScoreAt(s, 1) >= 0
    && (if s.phase == Finished then
          FinalScore(ScoreAt(s, 0), ScoreAt(s, 1)) || FinalScore(ScoreAt(s, 1), ScoreAt(s, 0))
        else
          && !Wins(ScoreAt(s, 0), ScoreAt(s, 1)) && !Wins(ScoreAt(s, 1), ScoreAt(s, 0))
          && s.serveReceiver == Some(s.order[ServiceTurn(Points(s)) % 2]))
  }

  lemma PointKeepsMatch(s: State, scorer: int, ball: Ball, now: real)
    requires MatchOk(s) && s.phase == Playing && 0 <= scorer < 2
    ensures MatchOk(Point(s, scorer, ball, now))
    ensures Points(Point(s, scorer, ball, now)) == Points(s) + 1
  {
    var s' := Point(s, scorer, ball, now);
    assert ScoreAt(s', scorer) == ScoreAt(s, scorer) + 1 && ScoreAt(s', 1 - scorer) == ScoreAt(s, 1 - scorer);
  }

  lemma StepKeepsMatch(s: State, i: Input)
    requires MatchOk(s)
    ensures MatchOk(Step(s, i))
    ensures Points(Step(s, i)) == Points(s) + if i.ExpireInput? && s.phase == Playing then 1 else 0
  {
    if i.ExpireInput? && s.phase == Playing {
      var ball := BallAt(s.ball, i.now);
      var scorer := if ball.fault.Some? then (if ball.direction.Away? then 1 else 0)
                    else if ball.direction.Towards? then 1 else 0;
      PointKeepsMatch(s, scorer, ball, i.now);
    }
    hide BallAt, Returned, FlightDeadline, MissDeadline, EventAt, MissedWindow, ServiceTurn, Point;
  }

  /** How many of the first serves go to the seat. */
  function Share(seat: int, serves: nat): nat {
    if serves == 0 then 0 else Share(seat, serves - 1) + if ServiceTurn(serves - 1) % 2 == seat then 1 else 0
  }

  /** How far the first seat is ahead after so many serves. */
  function Lead(serves: nat): int {
    if serves > 20 then serves % 2 else if serves % 4 == 2 then 2 else serves % 2
  }

  lemma LeadStep(serves: nat)
    requires serves > 0
    ensures Lead(serves) == Lead(serves - 1) + if ServiceTurn(serves - 1) % 2 == 0 then 1 else -1
    ensures ServiceTurn(serves - 1) % 2 in {0, 1}
  {
    TurnParity(serves - 1);
    hide ServiceTurn;
    if serves <= 20 {
      var q, r := serves / 4, serves % 4;
      assert serves == 4 * q + r;
    }
  }

  lemma {:induction false} ShareBalanced(serves: nat)
    ensures Share(0, serves) + Share(1, serves) == serves
    ensures Share(0, serves) - Share(1, serves) == Lead(serves)
  {
    hide Lead, ServiceTurn;
    if serves > 0 {
      ShareBalanced(serves - 1);
      LeadStep(serves);
    } else {
      NoLead();
    }
  }

  lemma NoLead()
    ensures Lead(0) == 0
  {
  }

  /** Whose serve it is: pairs up to twenty, then one and one. */
  lemma TurnParity(total: nat)
    ensures ServiceTurn(total) % 2 == if total < 20 then (if total % 4 < 2 then 0 else 1) else total % 2
  {
  }

  /** The serves made so far: one a point, and the one in play. */
  function Serves(s: State): int
    requires |s.order| == 2
  {
    Points(s) + if s.phase == Playing then 1 else 0
  }

  lemma {:induction false} RunShares(s: State, inputs: seq<Input>, seat: int)
    requires MatchOk(s) && 0 <= seat < 2
    ensures MatchOk(Run(s, inputs)) && 0 <= Serves(s) <= Serves(Run(s, inputs))
    ensures Received(s, inputs, s.order[seat]) == Share(seat, Serves(Run(s, inputs))) - Share(seat, Serves(s))
    decreases |inputs|
  {
    if inputs != [] {
      var s' := Step(s, inputs[0]);
      StepKeepsMatch(s, inputs[0]);
      StepShares(s, inputs[0], seat);
      hide Step, MatchOk, Share, Serves;
      RunShares(s', inputs[1..], seat);
    }
  }

  lemma StepShares(s: State, i: Input, seat: int)
    requires MatchOk(s) && 0 <= seat < 2
    ensures 0 <= Serves(s) <= Serves(Step(s, i))
    ensures Share(seat, Serves(Step(s, i))) == Share(seat, Serves(s))
            + if i.ServeInput? && s.phase == Countdown && s.serveReceiver == Some(s.order[seat]) then 1 else 0
  {
    StepServes(s, i);
    hide Step, ServiceTurn;
    ServesAtLeastZero(s);
  }

  lemma ServesAtLeastZero(s: State)
    requires MatchOk(s)
    ensures Serves(s) >= 0
  {
  }

  /** A point ends the serve it was scored on; only a serve adds one. */
  lemma StepServes(s: State, i: Input)
    requires MatchOk(s)
    ensures Serves(Step(s, i)) == Serves(s) + if i.ServeInput? && s.phase == Countdown then 1 else 0
  {
    StepPhase(s, i);
    hide MatchOk, Points, BallAt, MissDeadline, Ready, Swing;
    StepKeepsMatch(s, i);
  }

  lemma StepPhase(s: State, i: Input)
    requires |s.order| == 2
    ensures i.ReadyInput? || i.SwingOf? ==> (Step(s, i).phase == Playing <==> s.phase == Playing)
  {
    hide BallAt, Returned, FlightDeadline, EventAt, MissedWindow;
  }

  lemma InitialMatch(players: seq<PlayerId>, now: real)
    requires Initial(players, now).Success? && players[0] != players[1]
    ensures MatchOk(Initial(players, now).value) && Serves(Initial(players, now).value) == 0
  {
  }

  /**
   * Over every match of two different players: no score is winning while play
   * goes on, a finished score is one table tennis can end with, and the serves
   * received never differ by more than two.
   */
  lemma EveryMatchIsFair(players: seq<PlayerId>, now: real, inputs: seq<Input>)
    requires Initial(players, now).Success? && players[0] != players[1]
    ensures
      var s := Initial(players, now).value; var t := Run(s, inputs);
      var a := ScoreAt(t, 0); var b := ScoreAt(t, 1);
      && (t.phase != Finished ==> !Wins(a, b) && !Wins(b, a))
      && (t.phase == Finished ==> (FinalScore(a, b) || FinalScore(b, a)) && ValidFinalScore(a, b))
      && -2 <= Received(s, inputs, players[0]) - Received(s, inputs, players[1]) <= 2
  {
    var s := Initial(players, now).value;
    InitialMatch(players, now);
    RunShares(s, inputs, 0);
    RunShares(s, inputs, 1);
    ShareBalanced(Serves(Run(s, inputs)));
  }
}
