/**
 * Yacht: the turn clock, over a store whose calls may throw. A timer that fires
 * gives up its slot, resolves its turn and goes on through the chain of starts;
 * players roll, submit, leave and come back; the room is paused and resumed, the
 * process restarts. A running game keeps its timer on the running turn but for
 * exactly the throws named here.
 */
module YachtClock {
  import opened Wrappers
  import opened StoreFaults
  import opened YachtRound
  import opened YachtTurns
  import opened YachtTimeout
  import L = RedisLock
  import M = RedisModel
  import P = RoomLock

  /** A room; `over` once a chain has ended the game or abandoned the room, `paused` while nobody is there. */
  datatype Session = Session(table: Table, over: bool, paused: bool)

  datatype Event =
    | Fires(fire: Fire)                                          // the timer of the running turn
    | Rolls(roll: Roll)
    | Holds(playerId: PlayerId, roundNumber: int, held: seq<bool>)
    | Submits(submission: Submission)                            // its score confirmed
    | Leaves(playerId: PlayerId)
    | Reconnects(playerId: PlayerId)
    | Pauses                                                     // the room is empty
    | Resumes                                                    // and somebody comes back
    | Restarts(closes: bool)                                     // `closes`: a room that cannot go on can be closed

  /** Who is connected, and whether and where the store throws, may be another answer at every event. */
  datatype Happening = Happening(ports: Ports, event: Event, fault: Fault)

  predicate Fair(h: Happening) {
    h.event.Fires? ==> DiceOk(h.event.fire.rolled)
  }

  /** What every event finds and keeps, timer or not. */
  ghost predicate Fit(t: Table) {
    t.round.Some? ==> Sane(t)
  }

  // ---------------------------------------------------------------------------
  // Events.

  lemma ResolveFit(t: Table, d: Deadline, fire: Fire, f: Fault)
    requires Fit(t) && DiceOk(fire.rolled)
    ensures var out := ResolveWith(t.round, d, fire.rolled, fire.scoring, f);
            && (out.stored.Some? <==> t.round.Some?)
            && (t.round.Some? ==> Inv(out.stored.value) && out.stored.value.order == t.round.value.order)
            && (out.resolution.AutoRolled? ==> t.round.Some? && !out.stored.value.finished)
            && (out.resolution.Advanced? ==> t.round.Some?)
  {
    if t.round.Some? {
      var r := t.round.value;
      ResolveSound(r, d, fire.rolled, fire.scoring);
      ResolveKeepsOrder(r, d, fire.rolled, fire.scoring);
      ScoredFit(r, d, fire.scoring);
      RemainingOf(r);
      RemainingOf(Resolve(t.round, d, fire.rolled, fire.scoring).stored.value);
      hide Inv, Resolve, Scored, Scores, Remaining;
    }
  }

  lemma ScoredFit(r: Round, d: Deadline, scoring: Scoring)
    requires Inv(r)
    ensures Scored(r, d, scoring).Some? && Inv(Scored(r, d, scoring).value) && Scored(r, d, scoring).value.order == r.order
  {
    if Scores(r, d, scoring) {
      SubmitSound(r, Submission(d.playerId, d.roundNumber, r.dice.value, scoring.category));
      SubmitOrder(r, Submission(d.playerId, d.roundNumber, r.dice.value, scoring.category));
    }
    hide Submit;
  }

  lemma RemainingOf(r: Round)
    ensures Inv(r) ==> (Remaining(r) == 0 <==> r.finished) && Remaining(r) >= 0
  {
    if Inv(r) { RemainingPositive(r); }
  }

  lemma ResolveKeepsOrder(r: Round, d: Deadline, rolled: seq<int>, scoring: Scoring)
    requires Inv(r) && DiceOk(rolled)
    ensures var out := Resolve(Some(r), d, rolled, scoring);
            out.stored.Some? && out.stored.value.order == r.order
  {
    ResolveSound(r, d, rolled, scoring);
    hide SubmissionsOk, RollsOk;
  }

  lemma SubmitOrder(r: Round, s: Submission)
    requires Submit(r, s).Success?
    ensures Submit(r, s).value.state.order == r.order
  {
  }

  /** The slot is free, the turn is resolved, and the clock goes on from there. */
  ghost function ExpireTurn(ports: Ports, t: Table, d: Deadline, fire: Fire, f: Fault): Chain
    requires Fit(t) && DiceOk(fire.rolled)
  {
    ResolveFit(t, d, fire, f);
    var out := ResolveWith(t.round, d, fire.rolled, fire.scoring, f);
    var next := t.(round := out.stored, armed := None);
    var rest := Skip(f, Calls(t.round, d, fire.scoring));
    match out.resolution
    case AutoRolled(_) => StartTurn(ports, next, rest)
    case Advanced(a) => AdvanceChain(ports, next, a.completed, rest)
    case Threw => Throw(next)
    case _ => Chain(next, NoTurn, 0)
  }

  /** The timer service's own step, in place. */
  method FireTimer(timer: TurnTimer, d: Deadline, fire: Fire, f: Fault) returns (stop: Stop, ghost handles: nat)
    requires Fit(timer.Snapshot()) && DiceOk(fire.rolled)
    modifies timer
    ensures Chain(timer.Snapshot(), stop, handles) == ExpireTurn(timer.ports, old(timer.Snapshot()), d, fire, f)
  {
    ResolveFit(timer.Snapshot(), d, fire, f);
    var out := ResolveWith(timer.round, d, fire.rolled, fire.scoring, f);
    var rest := Skip(f, Calls(timer.round, d, fire.scoring));
    timer.round, timer.armed := out.stored, None;
    match out.resolution
    case AutoRolled(_) => stop, handles := timer.Begin(rest);
    case Advanced(a) => stop, handles := timer.AdvanceTo(a.completed, rest);
    case Threw => stop, handles := Thrown, 0;
    case _ => stop, handles := NoTurn, 0;
  }

  ghost function RollOn(ports: Ports, t: Table, roll: Roll, f: Fault): Chain
    requires Running(t)
  {
    var next := RecordRoll(t.round.value, roll);
    if next.Failure? then Chain(t, NoTurn, 0)
    else
      RecordRollInv(t.round.value, roll);
      var rolled := t.(round := Some(next.value));
      if Hits(f) then Throw(if f.done then rolled else t) else StartTurn(ports, rolled, Next(f))
  }

  function HoldOn(t: Table, p: PlayerId, n: int, held: seq<bool>, f: Fault): Chain
    requires t.round.Some?
  {
    var next := t.(round := Some(Settled(t.round.value, RecordHold(t.round.value, p, n, held))));
    if Hits(f) then Throw(if f.done then next else t) else Chain(next, NoTurn, 0)
  }

  ghost function SubmitOn(ports: Ports, t: Table, s: Submission, f: Fault): Chain
    requires Running(t)
  {
    var a := Submit(t.round.value, s);
    if a.Failure? then Chain(t, NoTurn, 0)
    else
      SubmitSound(t.round.value, s);
      var passed := t.(round := Some(a.value.state));
      if Hits(f) then Throw(if f.done then passed else t) else AdvanceChain(ports, passed, a.value.completed, Next(f))
  }

  /** Everyone's misses are forgotten and the timer is stopped at once, then the stored deadline goes. */
  function Pause(t: Table, f: Fault): Chain {
    var stopped := t.(misses := map[], armed := None);
    if Hits(f) then Throw(if f.done then stopped.(saved := None) else stopped)
    else Chain(stopped.(saved := None), NoTurn, 0)
  }

  ghost function Resume(ports: Ports, t: Table, f: Fault): Chain
    requires Running(t)
  {
    if Hits(f) then Throw(t)
    else if t.round.value.finished then Chain(t, NoTurn, 0)
    else StartTurn(ports, t, Next(f))
  }

  /**
   * Timers and misses are gone with the process. The turn gets its old deadline
   * back, whoever is connected, if the round, the deadline, the room and its
   * lifetime can be read; if not the room is closed.
   */
  function Restart(t: Table, closes: bool, f: Fault): Chain
    requires t.round.Some?
  {
    var r := t.round.value;
    var booted := t.(misses := map[], armed := None);
    if !r.finished && t.saved == Some(r.roundNumber) && ActivePlayer(r).Success? && (f.Never? || f.calls >= 4) then
      Chain(booted.(armed := Some(Armed(r.roundNumber, ActivePlayer(r).value))), TurnStarted, 0)
    else if closes then Chain(EMPTY, Abandoned, 0)
    else Throw(booted)
  }

  /** How far an event comes. */
  ghost function Outcome(t: Table, h: Happening): Chain
    requires t.round.Some? && Sane(t) && Fair(h)
  {
    match h.event
    case Fires(fire) =>
      if t.armed.None? then Chain(t, NoTurn, 0)
      else ExpireTurn(h.ports, t, Deadline(t.armed.value.roundNumber, t.armed.value.playerId), fire, h.fault)
    case Rolls(roll) => RollOn(h.ports, t, roll, h.fault)
    case Holds(p, n, held) => HoldOn(t, p, n, held, h.fault)
    case Submits(submission) => SubmitOn(h.ports, t, submission, h.fault)
    case Leaves(p) => RemovePlayer(h.ports, t, p, h.fault)
    case Reconnects(p) => if Hits(h.fault) then Throw(t) else Chain(Clear(t, p), NoTurn, 0)
    case Pauses => Pause(t, h.fault)
    case Resumes => Resume(h.ports, t, h.fault)
    case Restarts(closes) => Restart(t, closes, h.fault)
  }

  predicate Ends(stop: Stop) {
    stop.GameOver? || stop.CapReached? || stop.Abandoned?
  }

  ghost predicate Proper(s: Session) {
    !s.over ==> s.table.round.Some? && Sane(s.table) && (s.paused ==> s.table.armed.None?)
  }

  ghost function Happen(s: Session, h: Happening): Session
    requires Proper(s) && Fair(h)
  {
    if s.over then s
    else
      var c := Outcome(s.table, h);
      Session(c.table, Ends(c.stop),
              match h.event
              case Pauses => true
              case Resumes => false
              case Restarts(_) => false
              case _ => s.paused && c.table.armed.None?)
  }

  /** The running turn has the timer. */
  ghost predicate Clocked(t: Table) {
    && InPlay(t) && Sane(t)
    && t.armed == Some(Armed(t.round.value.roundNumber, ActivePlayer(t.round.value).value))
  }

  /** The clock runs, or has no reason to. */
  ghost predicate Ticking(s: Session) {
    s.over || s.paused || Clocked(s.table)
  }

  /** Four deadlines a turn, less the rolls already made. */
  function PatienceOn(s: Session): int {
    if s.over || s.table.round.None? then 0 else Patience(s.table.round.value)
  }

  // ---------------------------------------------------------------------------
  // What every chain keeps.

  /** Unless the game ends, the table stays fit and its patience does not grow; and a timer set is the running turn's. */
  ghost predicate Keeps(t: Table, c: Chain, before: int) {
    && (!Ends(c.stop) ==> c.table.round.Some? && Sane(c.table) && Patience(c.table.round.value) <= before)
    && (c.stop.TurnStarted? ==> Clocked(c.table))
    && (t.armed.None? ==> SetsOneTimer(c))
  }

  lemma RollsAtMostThree(r: Round)
    requires Inv(r)
    ensures 4 * Remaining(r) - 3 <= Patience(r) <= 4 * Remaining(r)
  {
  }

  /** A chain has the turn it began with, or at most four deadlines for each turn left. */
  lemma BoundedKeeps(ports: Ports, t: Table, c: Chain, extra: nat, mayThrow: bool)
    requires Bounded(ports, t, c, extra, mayThrow) && Sane(t)
    ensures !Ends(c.stop) ==>
              && c.table.round.Some? && Sane(c.table)
              && Patience(c.table.round.value) <= 4 * Turns(t)
              && (c.table.round == t.round || Patience(c.table.round.value) <= 4 * Turns(t) - 4)
    ensures c.stop.TurnStarted? ==> Clocked(c.table)
    ensures !c.stop.NoTurn? && (c.stop.Thrown? ==> mayThrow)
  {
    hide SubmissionsOk, Remaining, Spare, AllOffline, RollsOk, Patience;
    if !Ends(c.stop) { RollsAtMostThree(c.table.round.value); }
  }

  lemma StartKeeps(ports: Ports, t: Table, f: Fault)
    requires InPlay(t) && Sane(t)
    ensures var c := StartTurn(ports, t, f);
            Keeps(t, c, Patience(t.round.value)) && !c.stop.NoTurn? && (c.stop.Thrown? ==> f.In?)
  {
    hide StartTurn, Bounded, Clocked, Patience, SubmissionsOk, RollsOk, Remaining;
    StartBounded(ports, t, f);
    BoundedKeeps(ports, t, StartTurn(ports, t, f), 0, f.In?);
    RollsAtMostThree(t.round.value);
    if t.armed.None? { StartSets(ports, t, f); }
  }

  lemma AdvanceKeeps(ports: Ports, t: Table, completed: Option<Completion>, f: Fault)
    requires Sane(t) && (t.armed.Some? ==> t.armed.value.roundNumber == EndedRound(t, completed))
    ensures var c := AdvanceChain(ports, t, completed, f);
            Keeps(t, c, 4 * Turns(t)) && SetsOneTimer(c) && !c.stop.NoTurn? && (c.stop.Thrown? ==> f.In?)
  {
    hide AdvanceChain, Bounded, Clocked, Patience, SubmissionsOk, RollsOk, Remaining;
    AdvanceBounded(ports, t, completed, f);
    BoundedKeeps(ports, t, AdvanceChain(ports, t, completed, f), 0, f.In?);
    AdvanceSets(ports, t, completed, f);
  }

  /** The timer is the running turn's, or there is none. */
  ghost predicate OwnTimer(t: Table) {
    InPlay(t) && (t.armed.Some? ==> t.armed == Some(Armed(t.round.value.roundNumber, ActivePlayer(t.round.value).value)))
  }

  /** A turn passed is another turn: the timer of the old one is not the new one's. */
  lemma PassedDiffers(r: Round, submissions: seq<Submission>)
    requires Inv(r) && !r.finished && AdvanceTurn(r, submissions).Success?
    ensures var a := AdvanceTurn(r, submissions).value;
            && a.state.order == r.order
            && r.roundNumber == (if a.completed.Some? then a.completed.value.roundNumber else a.state.roundNumber)
            && (a.state.finished || a.state.roundNumber != r.roundNumber || ActivePlayer(a.state) != ActivePlayer(r))
  {
    hide SubmissionsOk, RollsOk;
  }

  lemma SaneAgain(t: Table, t': Table)
    requires Sane(t) && Running(t') && t'.round.value.order == t.round.value.order && t'.misses == t.misses
    ensures Sane(t')
  {
    hide Inv;
  }

  /** Clearing or taking away one player's misses leaves nobody past the limit. */
  lemma SaneWithout(t: Table, t': Table, p: PlayerId)
    requires Sane(t) && Running(t') && t'.misses == t.misses - {p}
    requires forall q :: q in t'.round.value.order ==> q in t.round.value.order
    ensures Sane(t')
  {
    hide Inv;
  }

  // ---------------------------------------------------------------------------
  // Leaving.

  /** The throw comes when the timer is gone, or the leaving player's turn is. */
  predicate LateLeave(t: Table, p: PlayerId, f: Fault)
    requires t.round.Some?
  {
    var r := t.round.value;
    && f.In? && !r.finished && p in r.order
    && if |r.order| == 1 then f.calls >= 2 else ActivePlayer(r) == Success(p) && Past(f, 2)
  }

  /** The turn and its timer are as they were. */
  predicate SameTurn(t: Table, t': Table) {
    && t.round.Some? && t'.round.Some? && t'.armed == t.armed
    && t'.round.value.roundNumber == t.round.value.roundNumber
    && ActivePlayer(t'.round.value) == ActivePlayer(t.round.value)
    && t'.round.value.finished == t.round.value.finished
  }

  lemma ActiveLeaves(ports: Ports, t: Table, p: PlayerId, f: Fault)
    requires InPlay(t) && ActivePlayer(t.round.value) == Success(p) && |t.round.value.order| > 1
    requires Sane(t) && p !in t.misses
    requires t.armed.Some? ==> OwnTimer(t)
    ensures var c := RemoveActive(ports, t, p, f);
            && Keeps(t, c, Patience(t.round.value)) && !c.stop.NoTurn?
            && (c.stop.Thrown? ==> if Past(f, 0) then !Clocked(c.table) else c.table == t)
  {
    hide SubmissionsOk, RollsOk, Patience, Remaining, WithoutParticipant, AdvanceTurn, AdvanceChain;
    var r := t.round.value;
    RemoveActiveSound(r, p);
    ExpireSound(r);
    PassedDiffers(r, r.submissions);
    RollsAtMostThree(r);
    var expired := Expire(r).value;
    RollsAtMostThree(expired.state);
    RemainingPositive(expired.state);
    var updated := WithoutParticipant(expired.state, p).value;
    RollsAtMostThree(updated);
    var next := t.(round := Some(updated));
    WithoutKeepsRound(expired.state, p);
    hide SubmissionsOk, RollsOk, Patience, Remaining, WithoutParticipant, Expire, AdvanceChain;
    SaneAgain(t, t.(round := Some(expired.state)));
    SaneWithout(t, next, p);
    if !Hits(f) && !Hits(Next(f)) {
      AdvanceKeeps(ports, next, expired.completed, Skip(f, 2));
    }
  }

  lemma WithoutKeepsRound(r: Round, p: PlayerId)
    requires Inv(r) && WithoutParticipant(r, p).Success?
    ensures var r' := WithoutParticipant(r, p).value;
            && r'.roundNumber == r.roundNumber && r'.finished == r.finished && r'.rollCount == r.rollCount
            && (!r.finished ==> ActivePlayer(r') == ActivePlayer(r))
            && forall q :: q in r'.order ==> q in r.order
  {
    WithoutParticipantInv(r, p);
  }

  /** Whoever leaves: the table stays fit, and the clock of a running turn is lost by a late throw only. */
  lemma LeaveKeeps(ports: Ports, t: Table, p: PlayerId, f: Fault)
    requires t.round.Some? && SaneBut(t, p) && (t.armed.Some? ==> OwnTimer(t))
    ensures var c := RemovePlayer(ports, t, p, f);
            && Keeps(t, c, Patience(t.round.value))
            && (c.stop.NoTurn? ==> SameTurn(t, c.table))
            && (c.stop.Thrown? ==> if LateLeave(t, p, f) then !Clocked(c.table) else SameTurn(t, c.table))
  {
    hide RemoveActive, Patience, SubmissionsOk, RollsOk, Remaining, Expire, WithoutParticipant;
    var r := t.round.value;
    var cleared := Clear(t, p);
    SaneCleared(t, p);
    if Hits(f) || Hits(Next(f)) || r.finished || p !in r.order {
    } else if |r.order| == 1 {
      hide Sane, Inv, Patience;
    } else if ActivePlayer(r) == Success(p) {
      hide Keeps, Sane, Patience, RemoveActive, SubmissionsOk, RollsOk;
      ActiveLeaves(ports, cleared, p, Skip(f, 2));
      KeepsCleared(t, p, RemoveActive(ports, cleared, p, Skip(f, 2)));
    } else {
      OtherLeaves(ports, t, p, f);
    }
  }

  /** Nobody but perhaps `p` has used up their offline turns. */
  ghost predicate SaneBut(t: Table, p: PlayerId) {
    Running(t) && forall q :: q in t.round.value.order && q != p ==> Misses(t, q) < MAX_OFFLINE_TURNS
  }

  lemma SaneCleared(t: Table, p: PlayerId)
    requires SaneBut(t, p)
    ensures Sane(Clear(t, p))
  {
    hide Inv;
  }

  lemma KeepsCleared(t: Table, p: PlayerId, c: Chain)
    requires t.round.Some? && Keeps(Clear(t, p), c, Patience(t.round.value))
    ensures Keeps(t, c, Patience(t.round.value))
  {
    hide Sane, Clocked, Patience;
  }

  lemma OtherLeaves(ports: Ports, t: Table, p: PlayerId, f: Fault)
    requires InPlay(t) && SaneBut(t, p) && p in t.round.value.order && |t.round.value.order| > 1
    requires ActivePlayer(t.round.value) != Success(p)
    ensures var c := RemovePlayer(ports, t, p, f);
            && Keeps(t, c, Patience(t.round.value)) && SameTurn(t, c.table)
            && (c.stop.NoTurn? || c.stop.Thrown?)
  {
    var r := t.round.value;
    SaneCleared(t, p);
    WithoutParticipantInv(r, p);
    WithoutParticipantTurns(r, p);
    WithoutKeepsRound(r, p);
    var left := Clear(t, p).(round := Some(WithoutParticipant(r, p).value));
    SaneWithout(Clear(t, p), left, p);
    hide SubmissionsOk, RollsOk, Remaining, WithoutParticipant, RemoveActive, Sane;
  }

  // ---------------------------------------------------------------------------
  // Starting a turn.

  /** The throw comes when an absent player's turn has been passed, or the game with its last player has been given up. */
  ghost predicate LateStart(ports: Ports, t: Table, f: Fault)
    requires InPlay(t)
  {
    var p := ActivePlayer(t.round.value).value;
    && !Hits(f) && ports.offline(p)
    && if Misses(t, p) + 1 < MAX_OFFLINE_TURNS then Past(f, 1) else LateLeave(t, p, Skip(f, 1))
  }

  lemma StartThrows(ports: Ports, t: Table, f: Fault)
    requires OwnTimer(t) && Sane(t) && StartTurn(ports, t, f).stop.Thrown?
    ensures var c := StartTurn(ports, t, f);
            if LateStart(ports, t, f) then !Clocked(c.table) else SameTurn(t, c.table)
  {
    hide Handle, SubmissionsOk, RollsOk, Clocked, Sane;
    var r := t.round.value;
    if !Hits(f) && ports.offline(ActivePlayer(r).value) {
      HandleThrows(ports, t, Next(f));
    }
  }

  lemma HandleThrows(ports: Ports, t: Table, f: Fault)
    requires OwnTimer(t) && Sane(t) && Handle(ports, t, f).stop.Thrown?
    ensures var c := Handle(ports, t, f);
            var p := ActivePlayer(t.round.value).value;
            if (if Misses(t, p) + 1 < MAX_OFFLINE_TURNS then Past(f, 0) else LateLeave(t, p, f)) then !Clocked(c.table)
            else SameTurn(t, c.table)
  {
    hide AdvanceChain, RemovePlayer, SubmissionsOk, RollsOk, Remaining, Keeps;
    var r := t.round.value;
    var p := ActivePlayer(r).value;
    var counted := t.(misses := t.misses[p := Misses(t, p) + 1]);
    if Misses(counted, p) >= MAX_OFFLINE_TURNS {
      LeaveKeeps(ports, counted, p, f);
    } else {
      ExpireSound(r);
      PassedDiffers(r, r.submissions);
      var a := Expire(r).value;
      var passed := counted.(round := Some(a.state));
      SaneAgain(counted, passed);
      hide Expire;
      if !Hits(f) {
        AdvanceKeeps(ports, passed, a.completed, Next(f));
      }
    }
  }

  // ---------------------------------------------------------------------------
  // Deadlines.

  /** A timer that fires keeps the clock unless a store call of its own throws or the scoring threw after its commit. */
  lemma FireKeeps(ports: Ports, t: Table, fire: Fire, f: Fault)
    requires Sane(t) && t.armed.Some? && DiceOk(fire.rolled) && OwnTimer(t)
    ensures var r := t.round.value;
            var c := ExpireTurn(ports, t, Deadline(t.armed.value.roundNumber, t.armed.value.playerId), fire, f);
            && Keeps(t, c, Patience(r)) && SetsOneTimer(c)
            && (c.stop.NoTurn? <==> fire.scoring.CommittedThenFailed? && !HasRollsLeft(r) && !c.stop.Thrown?)
            && (c.stop.TurnStarted? ==> Patience(c.table.round.value) <= Patience(r) - 1)
  {
    var r := t.round.value;
    var d := Deadline(t.armed.value.roundNumber, t.armed.value.playerId);
    var out := ResolveWith(t.round, d, fire.rolled, fire.scoring, f);
    var whole := Resolve(t.round, d, fire.rolled, fire.scoring);
    ResolveFit(t, d, fire, f);
    ResolveSound(r, d, fire.rolled, fire.scoring);
    ThrowKeepsPatience(r, d, fire, f);
    RollsAtMostThree(r);
    RollsAtMostThree(whole.stored.value);
    RemainingOf(r);
    RemainingOf(whole.stored.value);
    var next := t.(round := out.stored, armed := None);
    SaneAgain(t, next);
    hide Resolve, Patience, Remaining, SubmissionsOk, RollsOk, StartTurn, AdvanceChain, Sane, Scores, Scored;
    var rest := Skip(f, Calls(t.round, d, fire.scoring));
    match out.resolution
    case AutoRolled(_) => StartKeeps(ports, next, rest);
    case Advanced(a) => AdvanceKeeps(ports, next, a.completed, rest);
    case _ =>
  }

  lemma ThrowKeepsPatience(r: Round, d: Deadline, fire: Fire, f: Fault)
    requires Inv(r) && DiceOk(fire.rolled)
    ensures var out := ResolveWith(Some(r), d, fire.rolled, fire.scoring, f);
            out.stored.Some? && Patience(out.stored.value) <= Patience(r)
  {
    ResolveSound(r, d, fire.rolled, fire.scoring);
    ScoredFit(r, d, fire.scoring);
    if Scores(r, d, fire.scoring) {
      var s := Submission(d.playerId, d.roundNumber, r.dice.value, fire.scoring.category);
      SubmitSound(r, s);
      RollsAtMostThree(r);
      RollsAtMostThree(Submit(r, s).value.state);
    }
    hide Resolve, Patience, Remaining, SubmissionsOk, RollsOk, Submit;
  }

  // ---------------------------------------------------------------------------
  // The other events.

  lemma RollKeeps(ports: Ports, t: Table, roll: Roll, f: Fault)
    requires t.round.Some? && Sane(t) && (t.armed.Some? ==> OwnTimer(t))
    ensures var c := RollOn(ports, t, roll, f);
            && Keeps(t, c, Patience(t.round.value))
            && (c.stop.NoTurn? ==> SameTurn(t, c.table))
            && (c.stop.Thrown? ==> InPlay(t))
            && (c.stop.Thrown? && OwnTimer(t) ==>
                  if !Hits(f) && LateStart(ports, t, Next(f)) then !Clocked(c.table) else SameTurn(t, c.table))
  {
    var r := t.round.value;
    if RecordRoll(r, roll).Success? {
      RecordRollInv(r, roll);
      RollsKeepTurn(r, RollMove(roll));
      RollSpends(r, roll);
      hide RecordRoll, Patience, SubmissionsOk, RollsOk, StartTurn, Keeps, Sane;
      var next := t.(round := Some(RecordRoll(r, roll).value));
      SaneAgain(t, next);
      KeepsSelf(t, next);
      if !Hits(f) {
        StartKeeps(ports, next, Next(f));
        KeepsFrom(t, next, StartTurn(ports, next, Next(f)), Patience(next.round.value), Patience(r));
        if OwnTimer(t) && StartTurn(ports, next, Next(f)).stop.Thrown? { StartThrows(ports, next, Next(f)); }
      }
    } else {
      KeepsSelf(t, t);
    }
  }

  /** Nothing chain-like happened: the table is still fit, no timer was set. */
  lemma KeepsSelf(t: Table, t': Table)
    requires t'.round.Some? && t.round.Some? && Sane(t') && t'.armed == t.armed
    requires Patience(t'.round.value) <= Patience(t.round.value)
    ensures Keeps(t, Chain(t', NoTurn, 0), Patience(t.round.value)) && Keeps(t, Throw(t'), Patience(t.round.value))
  {
    hide Sane, Patience;
  }

  lemma KeepsFrom(t: Table, t': Table, c: Chain, before: int, before': int)
    requires Keeps(t', c, before) && t'.armed == t.armed && before <= before'
    ensures Keeps(t, c, before')
  {
    hide Sane, Clocked, Patience;
  }

  lemma RollSpends(r: Round, roll: Roll)
    requires Inv(r) && RecordRoll(r, roll).Success?
    ensures Patience(RecordRoll(r, roll).value) == Patience(r) - 1
  {
    hide SubmissionsOk;
  }

  lemma HoldKeeps(t: Table, p: PlayerId, n: int, held: seq<bool>, f: Fault)
    requires t.round.Some? && Sane(t)
    ensures var c := HoldOn(t, p, n, held, f);
            && Keeps(t, c, Patience(t.round.value)) && SameTurn(t, c.table)
  {
    var r := t.round.value;
    RollsKeepTurn(r, HoldMove(p, n, held));
    hide SubmissionsOk, RollsOk;
    var next := t.(round := Some(Settled(r, RecordHold(r, p, n, held))));
    SaneAgain(t, next);
    KeepsSelf(t, t);
    KeepsSelf(t, next);
  }

  lemma SubmitKeeps(ports: Ports, t: Table, s: Submission, f: Fault)
    requires t.round.Some? && Sane(t) && (t.armed.Some? ==> OwnTimer(t))
    ensures var c := SubmitOn(ports, t, s, f);
            && Keeps(t, c, Patience(t.round.value))
            && (c.stop.NoTurn? ==> SameTurn(t, c.table))
            && (c.stop.Thrown? && OwnTimer(t) ==> if Past(f, 0) then !Clocked(c.table) else SameTurn(t, c.table))
  {
    var r := t.round.value;
    KeepsSelf(t, t);
    if Submit(r, s).Success? {
      SubmitSound(r, s);
      SubmitOrder(r, s);
      PassedDiffers(r, r.submissions + [s]);
      var a := Submit(r, s).value;
      RollsAtMostThree(r);
      RollsAtMostThree(a.state);
      RemainingPositive(a.state);
      hide Submit, AdvanceTurn, Patience, Remaining, SubmissionsOk, RollsOk, AdvanceChain, Keeps;
      var next := t.(round := Some(a.state));
      SaneAgain(t, next);
      KeepsSelf(t, next);
      if !Hits(f) {
        AdvanceKeeps(ports, next, a.completed, Next(f));
        KeepsFrom(t, next, AdvanceChain(ports, next, a.completed, Next(f)), 4 * Turns(next), Patience(r));
      }
    }
  }

  lemma ResumeKeeps(ports: Ports, t: Table, f: Fault)
    requires t.round.Some? && Sane(t) && (t.armed.Some? ==> OwnTimer(t))
    ensures var c := Resume(ports, t, f);
            && Keeps(t, c, Patience(t.round.value))
            && (c.stop.NoTurn? <==> !Hits(f) && t.round.value.finished)
            && (c.stop.NoTurn? ==> c.table == t)
            && (c.stop.Thrown? && OwnTimer(t) ==>
                  if !Hits(f) && LateStart(ports, t, Next(f)) then !Clocked(c.table) else SameTurn(t, c.table))
  {
    assert Running(t);
    hide StartTurn, Keeps, Sane, Patience;
    KeepsSelf(t, t);
    if !Hits(f) && InPlay(t) {
      StartKeeps(ports, t, Next(f));
      if OwnTimer(t) && StartTurn(ports, t, Next(f)).stop.Thrown? { StartThrows(ports, t, Next(f)); }
    }
  }

  lemma FreshKeeps(t: Table, t': Table, stop: Stop)
    requires t.round.Some? && Sane(t) && t'.round == t.round && t'.misses == map[]
    requires stop.TurnStarted? ==> Clocked(t')
    requires t'.armed.Some? <==> stop.TurnStarted?
    ensures Sane(t') && Keeps(t, Chain(t', stop, 0), Patience(t.round.value))
  {
    hide Inv, Patience;
  }

  lemma ReconnectKeeps(t: Table, p: PlayerId, f: Fault)
    requires t.round.Some? && Sane(t)
    ensures var c := if Hits(f) then Throw(t) else Chain(Clear(t, p), NoTurn, 0);
            Keeps(t, c, Patience(t.round.value)) && SameTurn(t, c.table)
  {
    SaneWithout(t, Clear(t, p), p);
    KeepsSelf(t, t);
    KeepsSelf(t, Clear(t, p));
    hide Sane, Keeps, Patience;
  }

  // ---------------------------------------------------------------------------
  // One event.

  /**
   * The throws that lose the clock. A timer that fires has given up its slot, so
   * any throw of its own calls does, and so does a scoring that threw after its
   * commit. A restart or a return to an empty room must come to set a timer. Any
   * other event must have passed the turn, or given up the timer, before the
   * throw.
   */
  ghost predicate Loses(s: Session, h: Happening)
    requires !s.over && Proper(s) && Fair(h)
  {
    var t, f := s.table, h.fault;
    var r := t.round.value;
    var threw := Outcome(t, h).stop.Thrown?;
    match h.event
    case Fires(fire) => t.armed.Some? && (threw || (fire.scoring.CommittedThenFailed? && !HasRollsLeft(r)))
    case Rolls(_) => threw && !s.paused && InPlay(t) && !Hits(f) && LateStart(h.ports, t, Next(f))
    case Submits(_) => threw && !s.paused && Past(f, 0)
    case Leaves(p) => threw && !s.paused && LateLeave(t, p, f)
    case Resumes =>
      if s.paused then threw || r.finished else threw && InPlay(t) && !Hits(f) && LateStart(h.ports, t, Next(f))
    case Restarts(_) => threw
    case _ => false
  }

  /** What an event keeps in any session whose timer, if there is one, is the running turn's. */
  lemma EventKeeps(t: Table, h: Happening)
    requires t.round.Some? && Sane(t) && (t.armed.Some? ==> OwnTimer(t)) && Fair(h)
    ensures Keeps(t, Outcome(t, h), Patience(t.round.value))
  {
    hide Keeps, ExpireTurn, RollOn, HoldOn, SubmitOn, RemovePlayer, Resume, Sane, Patience, OwnTimer;
    var f := h.fault;
    KeepsSelfOf(t);
    match h.event
    case Fires(fire) => if t.armed.Some? { FireKeepsAlso(h.ports, t, fire, f); }
    case Rolls(roll) => RollKeeps(h.ports, t, roll, f);
    case Holds(p, n, held) => HoldKeeps(t, p, n, held, f);
    case Submits(submission) => SubmitKeeps(h.ports, t, submission, f);
    case Leaves(p) => LeaveKeepsAlso(h.ports, t, p, f);
    case Reconnects(p) => ReconnectKeeps(t, p, f);
    case Pauses => PauseKeeps(t, f);
    case Resumes => ResumeKeeps(h.ports, t, f);
    case Restarts(closes) => RestartKeeps(t, closes, f);
  }

  lemma KeepsSelfOf(t: Table)
    requires t.round.Some? && Sane(t)
    ensures Keeps(t, Chain(t, NoTurn, 0), Patience(t.round.value))
  {
    KeepsSelf(t, t);
  }

  lemma FireKeepsAlso(ports: Ports, t: Table, fire: Fire, f: Fault)
    requires Sane(t) && t.armed.Some? && DiceOk(fire.rolled) && OwnTimer(t)
    ensures Keeps(t, ExpireTurn(ports, t, Deadline(t.armed.value.roundNumber, t.armed.value.playerId), fire, f), Patience(t.round.value))
  {
    hide ExpireTurn, Keeps;
    FireKeeps(ports, t, fire, f);
  }

  lemma LeaveKeepsAlso(ports: Ports, t: Table, p: PlayerId, f: Fault)
    requires t.round.Some? && Sane(t) && (t.armed.Some? ==> OwnTimer(t))
    ensures Keeps(t, RemovePlayer(ports, t, p, f), Patience(t.round.value))
  {
    hide RemovePlayer, Keeps;
    LeaveKeeps(ports, t, p, f);
  }

  lemma PauseKeeps(t: Table, f: Fault)
    requires t.round.Some? && Sane(t)
    ensures Keeps(t, Pause(t, f), Patience(t.round.value)) && Pause(t, f).table.armed.None?
  {
    var c := Pause(t, f);
    FreshKeeps(t, c.table, c.stop);
  }

  lemma RestartKeeps(t: Table, closes: bool, f: Fault)
    requires t.round.Some? && Sane(t)
    ensures var c := Restart(t, closes, f);
            && Keeps(t, c, Patience(t.round.value)) && !c.stop.NoTurn?
            && (c.stop.Thrown? ==> !Clocked(c.table))
  {
    var c := Restart(t, closes, f);
    hide Patience, RollsOk, SubmissionsOk;
    if !c.stop.Abandoned? { FreshKeeps(t, c.table, c.stop); }
  }

  /** A clocked table with another turn of the same, or with none, is clocked or not accordingly. */
  lemma SameTurnClocked(t: Table, t': Table)
    requires Clocked(t) && SameTurn(t, t') && Sane(t')
    ensures Clocked(t')
  {
    hide Inv;
  }

  lemma ClockedOwn(t: Table)
    requires Clocked(t)
    ensures OwnTimer(t) && InPlay(t) && t.armed.Some? && Sane(t)
  {
  }

  /** A running clock and any event: it runs on or has no reason to, but for the throws that lose it. */
  lemma RunningIff(s: Session, h: Happening)
    requires !s.over && !s.paused && Clocked(s.table) && Fair(h)
    ensures Ticking(Happen(s, h)) <==> !Loses(s, h)
  {
    var t, f := s.table, h.fault;
    ClockedOwn(t);
    EventKeeps(t, h);
    hide Keeps, ExpireTurn, RollOn, HoldOn, SubmitOn, RemovePlayer, Resume, Sane, Patience, OwnTimer, LateLeave, LateStart, SameTurn,
         Clocked, Restart;
    var c := Outcome(t, h);
    StopsClocked(t, c);
    match h.event
    case Fires(fire) => FireKeeps(h.ports, t, fire, f);
    case Rolls(roll) => RollKeeps(h.ports, t, roll, f);
    case Holds(p, n, held) => HoldKeeps(t, p, n, held, f);
    case Submits(submission) => SubmitKeeps(h.ports, t, submission, f);
    case Leaves(p) => LeaveKeeps(h.ports, t, p, f);
    case Reconnects(p) => ReconnectKeeps(t, p, f);
    case Pauses =>
    case Resumes => ResumeKeeps(h.ports, t, f);
    case Restarts(closes) => RestartKeeps(t, closes, f);
  }

  /** How a chain that began at a running clock leaves it. */
  lemma StopsClocked(t: Table, c: Chain)
    requires Clocked(t) && Keeps(t, c, Patience(t.round.value))
    ensures c.stop.TurnStarted? ==> Clocked(c.table)
    ensures !Ends(c.stop) && SameTurn(t, c.table) ==> Clocked(c.table)
    ensures c.table.armed.None? ==> !Clocked(c.table)
  {
    if !Ends(c.stop) && SameTurn(t, c.table) { SameTurnClocked(t, c.table); }
    hide Sane, Inv, Patience;
  }

  /** The same while nobody is there, when no timer is set. */
  lemma PausedIff(s: Session, h: Happening)
    requires !s.over && s.paused && Proper(s) && Fair(h)
    ensures Ticking(Happen(s, h)) <==> !Loses(s, h)
  {
    var t, f := s.table, h.fault;
    EventKeeps(t, h);
    hide ExpireTurn, RollOn, HoldOn, SubmitOn, RemovePlayer, Resume, Sane, Patience, OwnTimer, LateLeave, LateStart, Restart, Pause;
    match h.event
    case Resumes => ResumeKeeps(h.ports, t, f);
    case Restarts(closes) => RestartKeeps(t, closes, f);
    case _ =>
  }

  /**
   * The exact condition. Whatever happens to a room whose clock runs or has no
   * reason to, it still does, if and only if this is not one of the throws that
   * lose it. No event adds to the patience, and a timer that fires takes from it.
   */
  lemma ClockLostIff(s: Session, h: Happening)
    requires !s.over && Proper(s) && Ticking(s) && Fair(h)
    ensures Ticking(Happen(s, h)) <==> !Loses(s, h)
    ensures Proper(Happen(s, h))
    ensures !Happen(s, h).over && Ticking(Happen(s, h)) ==>
              PatienceOn(Happen(s, h)) <= PatienceOn(s) - (if h.event.Fires? && !s.paused then 1 else 0)
  {
    if s.paused {
      PausedIff(s, h);
      EventKeeps(s.table, h);
    } else {
      RunningIff(s, h);
      ClockedOwn(s.table);
      EventKeeps(s.table, h);
      if h.event.Fires? { FireSpends(s, h); }
    }
    hide Outcome, Loses, Patience, Clocked, Sane;
    ProperAfter(s, h);
  }

  lemma ProperAfter(s: Session, h: Happening)
    requires !s.over && Proper(s) && Fair(h) && Keeps(s.table, Outcome(s.table, h), Patience(s.table.round.value))
    ensures Proper(Happen(s, h))
    ensures !Happen(s, h).over ==> PatienceOn(Happen(s, h)) <= PatienceOn(s)
  {
    hide Sane, Patience, Clocked, ExpireTurn, RollOn, HoldOn, SubmitOn, RemovePlayer, Resume, Restart;
  }

  lemma FireSpends(s: Session, h: Happening)
    requires !s.over && !s.paused && Clocked(s.table) && Fair(h) && h.event.Fires?
    ensures Proper(s)
    ensures !Happen(s, h).over && Ticking(Happen(s, h)) ==> PatienceOn(Happen(s, h)) <= PatienceOn(s) - 1
  {
    ClockedOwn(s.table);
    FireKeeps(h.ports, s.table, h.event.fire, h.fault);
    hide ExpireTurn, Patience, Sane;
  }

  // ---------------------------------------------------------------------------
  // Whole games.

  /** The session after the first event. */
  ghost function AfterFirst(s: Session, hs: seq<Happening>): Session
    requires Proper(s) && Ticking(s) && hs != [] && forall h :: h in hs ==> Fair(h)
    ensures Proper(AfterFirst(s, hs))
    ensures !s.over ==> (Ticking(AfterFirst(s, hs)) <==> !Loses(s, hs[0]))
    ensures s.over ==> AfterFirst(s, hs) == s
  {
    assert hs[0] in hs;
    if s.over then s
    else
      ClockLostIff(s, hs[0]);
      Happen(s, hs[0])
  }

  /** No event of the run loses the clock. */
  ghost predicate NeverLoses(s: Session, hs: seq<Happening>)
    requires Proper(s) && Ticking(s) && forall h :: h in hs ==> Fair(h)
    decreases |hs|
  {
    hs != [] && !s.over ==>
      assert hs[0] in hs;
      !Loses(s, hs[0]) && NeverLoses(AfterFirst(s, hs), hs[1..])
  }

  /** At every moment of the run the clock runs or has no reason to. */
  ghost predicate TicksThroughout(s: Session, hs: seq<Happening>)
    requires Proper(s) && Ticking(s) && forall h :: h in hs ==> Fair(h)
    decreases |hs|
  {
    hs != [] ==> Ticking(AfterFirst(s, hs)) && TicksThroughout(AfterFirst(s, hs), hs[1..])
  }

  /** Over a run the clock ticks at every moment if and only if no event of it is one that loses it. */
  lemma {:induction false} ClockRunsIff(s: Session, hs: seq<Happening>)
    requires Proper(s) && Ticking(s) && forall h :: h in hs ==> Fair(h)
    ensures TicksThroughout(s, hs) <==> NeverLoses(s, hs)
    decreases |hs|
  {
    hide Loses, Proper, Ticking;
    if hs != [] {
      if Ticking(AfterFirst(s, hs)) { ClockRunsIff(AfterFirst(s, hs), hs[1..]); }
      if s.over { OverIsQuiet(s, hs[1..]); }
    }
  }

  lemma OverIsQuiet(s: Session, hs: seq<Happening>)
    requires s.over && Proper(s) && Ticking(s) && forall h :: h in hs ==> Fair(h)
    ensures NeverLoses(s, hs)
  {
  }

  ghost function Happenings(s: Session, hs: seq<Happening>): Session
    requires Proper(s) && Ticking(s) && (forall h :: h in hs ==> Fair(h)) && NeverLoses(s, hs)
    ensures Proper(Happenings(s, hs)) && Ticking(Happenings(s, hs))
    decreases |hs|
  {
    if hs == [] || s.over then s else Happenings(AfterFirst(s, hs), hs[1..])
  }

  /** The timers that went off in the run. */
  ghost function CountFires(s: Session, hs: seq<Happening>): nat
    requires Proper(s) && Ticking(s) && (forall h :: h in hs ==> Fair(h)) && NeverLoses(s, hs)
    decreases |hs|
  {
    if hs == [] || s.over then 0
    else (if hs[0].event.Fires? && !s.paused then 1 else 0) + CountFires(AfterFirst(s, hs), hs[1..])
  }

  /**
   * Whoever rolls, submits, leaves or comes back in between, whoever is connected
   * when, and wherever the store throws without losing the clock: a game has no
   * more deadlines than it has patience.
   */
  lemma {:induction false} FiresSpendPatience(s: Session, hs: seq<Happening>)
    requires Proper(s) && Ticking(s) && (forall h :: h in hs ==> Fair(h)) && NeverLoses(s, hs)
    ensures var t := Happenings(s, hs);
            !t.over ==> PatienceOn(t) + CountFires(s, hs) <= PatienceOn(s)
    decreases |hs|
  {
    hide Proper, Ticking, Loses, PatienceOn;
    if hs != [] && !s.over {
      assert hs[0] in hs;
      ClockLostIff(s, hs[0]);
      hide Happen;
      FiresSpendPatience(AfterFirst(s, hs), hs[1..]);
    }
  }

  lemma PatienceLeft(s: Session)
    requires Proper(s) && Ticking(s)
    ensures !s.over && !s.paused ==> PatienceOn(s) > 0
    ensures s.over ==> PatienceOn(s) == 0
  {
    if !s.over && !s.paused {
      RollsAtMostThree(s.table.round.value);
      RemainingPositive(s.table.round.value);
    }
    hide Patience, Remaining, SubmissionsOk, RollsOk;
  }

  /** The first turn of a game of `players`, whoever is connected. */
  ghost function Opening(ports: Ports, players: seq<PlayerId>): Session
    requires Start(1, players, DEFAULT_TOTAL_ROUNDS).Success?
  {
    StartInv(1, players, DEFAULT_TOTAL_ROUNDS);
    var c := StartTurn(ports, EMPTY.(round := Some(Start(1, players, DEFAULT_TOTAL_ROUNDS).value)), Never);
    Session(c.table, Ends(c.stop), false)
  }

  lemma OpeningTicks(ports: Ports, players: seq<PlayerId>)
    requires Start(1, players, DEFAULT_TOTAL_ROUNDS).Success?
    ensures var s := Opening(ports, players);
            Proper(s) && Ticking(s) && !s.paused && PatienceOn(s) <= 48 * |players|
  {
    var r := Start(1, players, DEFAULT_TOTAL_ROUNDS).value;
    StartInv(1, players, DEFAULT_TOTAL_ROUNDS);
    var t := EMPTY.(round := Some(r));
    assert Patience(r) == 48 * |players| && Sane(t);
    hide SubmissionsOk, RollsOk, Sane, StartTurn, Clocked, Patience;
    StartKeeps(ports, t, Never);
  }

  /**
   * Over every run none of whose throws loses the clock: until the game ends or
   * the room is empty the running turn has its timer, and after 48 deadlines a
   * player it has come to that.
   */
  lemma ClockRunsTheGame(ports: Ports, players: seq<PlayerId>, hs: seq<Happening>)
    requires Start(1, players, DEFAULT_TOTAL_ROUNDS).Success? && forall h :: h in hs ==> Fair(h)
    ensures Proper(Opening(ports, players)) && Ticking(Opening(ports, players))
    ensures NeverLoses(Opening(ports, players), hs) ==>
              var s := Happenings(Opening(ports, players), hs);
              && (s.over || s.paused || Clocked(s.table))
              && (CountFires(Opening(ports, players), hs) >= 48 * |players| ==> s.over || s.paused)
  {
    OpeningTicks(ports, players);
    hide Opening, Start, Happenings, CountFires, NeverLoses, PatienceOn, Proper, Clocked;
    var s := Opening(ports, players);
    if NeverLoses(s, hs) {
      FiresSpendPatience(s, hs);
      PatienceLeft(Happenings(s, hs));
    }
  }

  // ---------------------------------------------------------------------------
  // The clock lost.

  /** What the caller of `withLock` meets when its SET answers like this: a throw before anything is done, or the lock. */
  function LockFault(reply: Result<M.Reply, M.Error>): Fault {
    if reply.Failure? then In(0, false) else Never
  }

  /**
   * On a store at its key cap every running clock is lost with the next deadline,
   * rolls left or not: its first call finds the room's lock free, and the key for
   * it is refused. Store and round stay as they were, and the turn has no timer.
   */
  lemma FullStoreLosesClock<V>(
      s: Session, ports: Ports, fire: Fire, t: P.Timing, lock: P.Room<V>, c: P.Token, max: nat, data: M.View, key: M.Name, o: M.Outcome)
    requires !s.over && !s.paused && Clocked(s.table) && DiceOk(fire.rolled)
    requires L.IsLock(data, key) && L.LeaseAt(data, key) == lock.lock && t.ttl > 0
    requires c in lock.calls && lock.calls[c].Trying? && P.Free(lock.lock, lock.now)
    requires |M.Live(data, lock.now)| >= max
    requires M.Exec(M.Room(lock.now, max, None), M.Live(data, lock.now), L.Acquire(key, c, t.ttl), o)
    ensures o.reply == Failure(M.OutOfMemory) && o.view == M.Live(data, lock.now)
    ensures var s' := Happen(s, Happening(ports, Fires(fire), LockFault(o.reply)));
            !Ticking(s') && s'.table == s.table.(armed := None)
  {
    L.AcquireIsTryLock(t, lock, c, max, data, key, o);
    hide M.Exec, L.Acquire;
    var h := Happening(ports, Fires(fire), LockFault(o.reply));
    ThrowsAtOnce(ports, s.table, fire, LockFault(o.reply));
    hide Outcome, ExpireTurn, Sane;
  }

  lemma ThrowsAtOnce(ports: Ports, t: Table, fire: Fire, f: Fault)
    requires Clocked(t) && DiceOk(fire.rolled) && f == In(0, false)
    ensures Outcome(t, Happening(ports, Fires(fire), f)) == Throw(t.(armed := None))
  {
    hide SubmissionsOk, RollsOk, AutoRoll, Submit, Expire, StartTurn, AdvanceChain;
  }

  lemma OpeningIsClocked(ports: Ports, players: seq<PlayerId>)
    requires Start(1, players, DEFAULT_TOTAL_ROUNDS).Success? && forall p :: !ports.offline(p)
    ensures var s := Opening(ports, players);
            !s.over && !s.paused && Clocked(s.table) && s.table.round.value.rollCount == 0
  {
    OpeningTicks(ports, players);
  }

  /** It happens: with everyone present and no die rolled, the first deadline of a game meets a store that has filled up. */
  lemma ClockIsLost<V>(
      players: seq<PlayerId>, ports: Ports, fire: Fire, t: P.Timing, lock: P.Room<V>, c: P.Token, max: nat, data: M.View, key: M.Name,
      o: M.Outcome)
    requires Start(1, players, DEFAULT_TOTAL_ROUNDS).Success? && (forall p :: !ports.offline(p)) && DiceOk(fire.rolled)
    requires key !in data && |M.Live(data, lock.now)| >= max && t.ttl > 0
    requires lock.lock.None? && c in lock.calls && lock.calls[c].Trying?
    requires M.Exec(M.Room(lock.now, max, None), M.Live(data, lock.now), L.Acquire(key, c, t.ttl), o)
    ensures var s := Opening(ports, players);
            && Proper(s) && Ticking(s) && s.table.round.Some? && HasRollsLeft(s.table.round.value)
            && !Ticking(Happen(s, Happening(ports, Fires(fire), LockFault(o.reply))))
  {
    hide Opening, Happen, M.Exec, L.Acquire;
    OpeningIsClocked(ports, players);
    FullStoreLosesClock(Opening(ports, players), ports, fire, t, lock, c, max, data, key, o);
  }

  /** Who acts, when it is a player. */
  function Actor(e: Event): Option<PlayerId> {
    match e
    case Rolls(roll) => Some(roll.playerId)
    case Submits(submission) => Some(submission.playerId)
    case Leaves(p) => Some(p)
    case _ => None
  }

  /**
   * Once lost, only the player to move can bring the clock back, by rolling,
   * submitting or leaving; or the room is resumed, or the process restarts.
   */
  lemma LostClockWaits(s: Session, h: Happening)
    requires !s.over && !s.paused && Proper(s) && InPlay(s.table) && s.table.armed.None? && Fair(h)
    requires Actor(h.event) != Some(ActivePlayer(s.table.round.value).value)
    requires !h.event.Pauses? && !h.event.Resumes? && !h.event.Restarts?
    ensures var s' := Happen(s, h);
            && !Ticking(s') && s'.table.armed.None? && s'.table.round.Some?
            && ActivePlayer(s'.table.round.value) == ActivePlayer(s.table.round.value)
  {
    hide SubmissionsOk, RollsOk, StartTurn, AdvanceChain, RemoveActive, Sane;
    var r := s.table.round.value;
    match h.event
    case Leaves(p) => if p in r.order { WithoutParticipantInv(r, p); }
    case Holds(p, n, held) => RollsKeepTurn(r, HoldMove(p, n, held));
    case _ =>
  }
}
