/** Ping pong: the ball's line and what a swing at it is worth, in real arithmetic. */
module PingPongCourt {
  import opened Wrappers

  const NORMAL_SPEED := 1.0
  const SMASH_SPEED := 1.95
  const WEAK_SPEED := 0.82
  const POINT_COUNTDOWN_MILLIS := 2600.0
  const MAX_ROLLBACK_MILLIS := 120.0

  const IDEAL_1 := 0.9
  const WINDOW_1_LOW := 0.72
  const WINDOW_1_HIGH := 1.06
  const MISS_1 := 1.1
  const IDEAL_2 := 1.0 - IDEAL_1
  const WINDOW_2_LOW := 1.0 - WINDOW_1_HIGH
  const WINDOW_2_HIGH := 1.0 - WINDOW_1_LOW
  const MISS_2 := 1.0 - MISS_1
  const PERFECT_DISTANCE := 0.06
  const GOOD_DISTANCE := 0.1
  const FAULT_BAND := 0.04
  const EARLY_MARGIN := IDEAL_1 - WINDOW_1_LOW
  const LATE_MARGIN := WINDOW_1_HIGH - IDEAL_1

  /** Towards the first player, or away. */
  datatype Direction = Towards | Away

  datatype Fault = Out | Net

  datatype Ball = Ball(
    pos: real,
    direction: Direction,
    speed: real,
    smash: bool,
    fault: Option<Fault>,
    faultFrom: real,
    x0: real,
    x1: real,
    launchedAt: real
  )

  datatype EventType =
    | ReadyEvent | Practice | PlayerReady | Served | TooEarly | TooLate
    | OkReturn | NiceReturn | SmashReturn | OutReturn | NetReturn | PointEvent | GameOver

  function Abs(x: real): real {
    if x < 0.0 then -x else x
  }

  function Max(x: real, y: real): real {
    if x < y then y else x
  }

  function Min(x: real, y: real): real {
    if x < y then x else y
  }

  function Sign(d: Direction): real {
    if d.Towards? then 1.0 else -1.0
  }

  function Progress(pos: real, d: Direction): real {
    if d.Towards? then pos else 1.0 - pos
  }

  /** Rounded to the nearest millisecond, halves up, never less than one. */
  function Duration(from: real, to: real, speed: real): real
    requires speed > 0.0
  {
    Max(1.0, (Abs(to - from) / speed * 1000.0 + 0.5).Floor as real)
  }

  function MissDeadline(b: Ball, now: real): real
    requires b.speed > 0.0
  {
    now + Duration(b.pos, if b.direction.Towards? then MISS_1 else MISS_2, b.speed)
  }

  function FlightTarget(b: Ball): real {
    match b.fault
    case Some(Net) => 0.5
    case Some(Out) => if b.direction.Towards? then 1.5 else -0.5
    case None => if b.direction.Towards? then MISS_1 else MISS_2
  }

  function FlightDeadline(b: Ball, now: real): real
    requires b.speed > 0.0
  {
    now + Duration(b.pos, FlightTarget(b), b.speed)
  }

  function BallAt(b: Ball, now: real): Ball {
    var elapsed := Max(0.0, now - b.launchedAt) / 1000.0;
    b.(pos := b.pos + Sign(b.direction) * b.speed * elapsed, launchedAt := now)
  }

  function BallX(b: Ball): real {
    b.x0 + (b.x1 - b.x0) * Max(0.0, Min(1.0, Progress(b.pos, b.direction)))
  }

  function FaultOf(distance: real, early: bool): Option<Fault> {
    var limit := (if early then EARLY_MARGIN else LATE_MARGIN) - FAULT_BAND;
    if distance <= limit then None else Some(if early then Out else Net)
  }

  datatype Kind = Kind(speed: real, smash: bool, event: EventType)

  function ReturnKind(distance: real, fault: Option<Fault>): (k: Kind)
    ensures k.speed in {NORMAL_SPEED, SMASH_SPEED, WEAK_SPEED}
  {
    if fault == Some(Out) then Kind(NORMAL_SPEED, false, OutReturn)
    else if fault == Some(Net) then Kind(WEAK_SPEED, false, NetReturn)
    else if distance <= PERFECT_DISTANCE then Kind(SMASH_SPEED, true, SmashReturn)
    else if distance <= GOOD_DISTANCE then Kind(NORMAL_SPEED, false, NiceReturn)
    else Kind(WEAK_SPEED, false, OkReturn)
  }

  /** The moment a swing is judged at: what the client says, within reach of the server's clock. */
  function JudgedAt(now: real, clientTs: real): real {
    Max(now - MAX_ROLLBACK_MILLIS, Min(now, clientTs))
  }

  /** A swing out of the window hits nothing. */
  function MissedWindow(seat: int, pos: real): Option<EventType> {
    if (if seat == 0 then pos < WINDOW_1_LOW else pos > WINDOW_2_HIGH) then Some(TooEarly)
    else if (if seat == 0 then pos > WINDOW_1_HIGH else pos < WINDOW_2_LOW) then Some(TooLate)
    else None
  }

  // ---------------------------------------------------------------------------
  // The line of the ball.

  /**
   * Moving a ball's description to another time and on again is moving it once,
   * if and only if the first time is not before its launch (or nothing is moved).
   */
  lemma BallAtComposesIff(b: Ball, t1: real, t2: real)
    requires b.speed > 0.0 && t1 <= t2
    ensures BallAt(BallAt(b, t1), t2) == BallAt(b, t2) <==> t1 >= b.launchedAt || t1 == t2
  {
    var e1 := Max(0.0, t1 - b.launchedAt) / 1000.0;
    var e2 := (t2 - t1) / 1000.0;
    var e := Max(0.0, t2 - b.launchedAt) / 1000.0;
    var v := Sign(b.direction) * b.speed;
    assert BallAt(BallAt(b, t1), t2).pos == b.pos + v * e1 + v * e2;
    assert BallAt(b, t2).pos == b.pos + v * e;
    assert v * e1 + v * e2 == v * (e1 + e2);
    if v * (e1 + e2) == v * e {
      MulCancel(v, e1 + e2, e);
    }
  }

  lemma MulCancel(v: real, x: real, y: real)
    requires v != 0.0 && v * x == v * y
    ensures x == y
  {
    assert v * (x - y) == 0.0;
  }

  /** A product the solver need not look into. */
  function Times(x: real, y: real): real {
    x * y
  }

  /** The ball flies towards its target and is not there yet. */
  predicate Ahead(b: Ball, target: real) {
    Sign(b.direction) * (target - b.pos) > 0.0
  }

  /**
   * A deadline is the moment the ball arrives: it is then within half a
   * millisecond of flight of its target, rounding included.
   */
  lemma DeadlineMeetsTarget(b: Ball)
    requires b.speed > 0.0 && Ahead(b, FlightTarget(b))
    requires Abs(FlightTarget(b) - b.pos) >= 0.0005 * b.speed
    ensures Abs(BallAt(b, FlightDeadline(b, b.launchedAt)).pos - FlightTarget(b)) <= 0.0005 * b.speed
  {
    var target := FlightTarget(b);
    var way := Abs(target - b.pos);
    var flight := Duration(b.pos, target, b.speed);
    DurationMatches(b.pos, target, b.speed);
    FlownAfter(b, flight);
    CloseEnough(b, target, Times(b.speed, flight / 1000.0), way, 0.0005 * b.speed);
    hide BallAt, Duration, FlightTarget, Max, Abs, Ahead, Times;
  }

  /** At the given speed the rounded time covers the way to within half a millisecond's worth. */
  lemma DurationMatches(from: real, to: real, speed: real)
    requires speed > 0.0 && Abs(to - from) >= 0.0005 * speed
    ensures Duration(from, to, speed) >= 1.0
    ensures Abs(Times(speed, Duration(from, to, speed) / 1000.0) - Abs(to - from)) <= 0.0005 * speed
  {
    var way := Abs(to - from);
    hide Times;
    Rounded(way, speed);
    MillisAgain(way, speed);
    CoveredClose(speed, Duration(from, to, speed), way / speed * 1000.0, way);
  }

  lemma MillisAgain(way: real, speed: real)
    requires speed > 0.0
    ensures Times(way / speed * 1000.0, speed) == 1000.0 * way
  {
    assert way / speed * speed == way;
  }

  lemma CloseEnough(b: Ball, target: real, covered: real, way: real, slack: real)
    requires Ahead(b, target) && way == Abs(target - b.pos) && Abs(covered - way) <= slack
    ensures Abs((if b.direction.Towards? then b.pos + covered else b.pos - covered) - target) <= slack
  {
    AheadMeans(b, target);
  }

  lemma AheadMeans(b: Ball, target: real)
    requires Ahead(b, target)
    ensures if b.direction.Towards? then target > b.pos else target < b.pos
  {
    assert b.direction.Towards? ==> Sign(b.direction) * (target - b.pos) == target - b.pos;
    assert b.direction.Away? ==> Sign(b.direction) * (target - b.pos) == b.pos - target;
  }

  /** Where the ball is so many milliseconds after its launch. */
  lemma FlownAfter(b: Ball, flight: real)
    requires flight >= 0.0
    ensures BallAt(b, b.launchedAt + flight).pos
            == if b.direction.Towards? then b.pos + Times(b.speed, flight / 1000.0) else b.pos - Times(b.speed, flight / 1000.0)
  {
    var x := flight / 1000.0;
    assert 1.0 * b.speed * x == b.speed * x;
    assert -1.0 * b.speed * x == -(b.speed * x);
  }

  lemma Rounded(way: real, speed: real)
    requires speed > 0.0 && way >= 0.0005 * speed
    ensures var ms := way / speed * 1000.0;
            -0.5 <= Max(1.0, (ms + 0.5).Floor as real) - ms <= 0.5
  {
    var ms := way / speed * 1000.0;
    assert way / speed >= 0.0005;
    assert ms >= 0.5;
  }

  lemma CoveredClose(speed: real, flight: real, ms: real, way: real)
    requires speed > 0.0 && -0.5 <= flight - ms <= 0.5 && Times(ms, speed) == 1000.0 * way
    ensures Abs(Times(speed, flight / 1000.0) - way) <= 0.0005 * speed
  {
    hide Times;
    ThousandTimes(speed, flight);
    Between(flight, ms, speed);
  }

  lemma ThousandTimes(speed: real, flight: real)
    ensures 1000.0 * Times(speed, flight / 1000.0) == Times(flight, speed)
  {
    var y := flight / 1000.0;
    assert flight == 1000.0 * y;
    assert flight * speed == 1000.0 * (y * speed);
  }

  lemma Between(flight: real, ms: real, speed: real)
    requires speed > 0.0 && -0.5 <= flight - ms <= 0.5
    ensures -0.5 * speed <= Times(flight, speed) - Times(ms, speed) <= 0.5 * speed
  {
    var d := flight - ms;
    assert flight * speed - ms * speed == d * speed;
    ProductNonNegative(0.5 - d, speed);
    ProductNonNegative(d + 0.5, speed);
    assert (0.5 - d) * speed == 0.5 * speed - d * speed && (d + 0.5) * speed == d * speed + 0.5 * speed;
  }

  lemma ProductNonNegative(x: real, y: real)
    requires x >= 0.0 && y >= 0.0
    ensures x * y >= 0.0
  {
  }

  // ---------------------------------------------------------------------------
  // Mirror.

  function Turned(d: Direction): Direction {
    if d.Towards? then Away else Towards
  }

  /** The court seen from the other side. */
  function MirrorBall(b: Ball): Ball {
    b.(pos := 1.0 - b.pos, direction := Turned(b.direction))
  }

  lemma MirrorBallAt(b: Ball, now: real)
    ensures BallAt(MirrorBall(b), now) == MirrorBall(BallAt(b, now))
    ensures BallX(MirrorBall(b)) == BallX(b)
  {
  }

  lemma MirrorDeadline(b: Ball, now: real)
    requires b.speed > 0.0
    ensures FlightDeadline(MirrorBall(b), now) == FlightDeadline(b, now)
    ensures MissDeadline(MirrorBall(b), now) == MissDeadline(b, now)
  {
  }

  // ---------------------------------------------------------------------------
  // The window.

  function Ideal(seat: int): real {
    if seat == 0 then IDEAL_1 else IDEAL_2
  }

  function Distance(seat: int, pos: real): real {
    Abs(pos - Ideal(seat))
  }

  predicate Early(seat: int, pos: real) {
    if seat == 0 then pos < Ideal(seat) else pos > Ideal(seat)
  }

  function EventAt(seat: int, pos: real): EventType {
    var missed := MissedWindow(seat, pos);
    if missed.Some? then missed.value
    else ReturnKind(Distance(seat, pos), FaultOf(Distance(seat, pos), Early(seat, pos))).event
  }

  /** The seven bands of the window, from the first player's side. */
  lemma WindowBands(pos: real)
    ensures EventAt(0, pos) ==
            if pos < 0.72 then TooEarly
            else if pos < 0.76 then OutReturn
            else if pos < 0.8 then OkReturn
            else if pos < 0.84 then NiceReturn
            else if pos <= 0.96 then SmashReturn
            else if pos <= 1.0 then NiceReturn
            else if pos <= 1.02 then OkReturn
            else if pos <= 1.06 then NetReturn
            else TooLate
    ensures EventAt(1, 1.0 - pos) == EventAt(0, pos)
  {
  }
}
