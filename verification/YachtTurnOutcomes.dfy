/**
 * Yacht: what becomes of a turn whose player is away, and of the running turn
 * when the process is restarted.
 */
module YachtTurnOutcomes {
  import opened Wrappers
  import opened StoreFaults
  import opened YachtRound
  import opened YachtOutcomes
  import opened YachtTurns
  import opened YachtTimeout
  import opened YachtClock

  // ---------------------------------------------------------------- one player away

  /** The seat that plays next. */
  function NextSeat(r: Round): int {
    if r.activeIndex + 1 < |r.order| then r.activeIndex + 1 else 0
  }

  /** Only the player to move is away, others are there, turns are left, and the game is not declared over. */
  ghost predicate AloneAway(ports: Ports, t: Table) {
    && InPlay(t) && |t.round.value.order| > 1
    && !(t.round.value.roundNumber == t.round.value.totalRounds && t.round.value.activeIndex + 1 == |t.round.value.order|)
    && (forall i | 0 <= i < |t.round.value.order| :: ports.offline(t.round.value.order[i]) <==> i == t.round.value.activeIndex)
    && forall r, b :: !ports.over(r, b)
  }

  lemma PassedNext(r: Round)
    requires Inv(r) && !r.finished && |r.order| > 1
    requires !(r.roundNumber == r.totalRounds && r.activeIndex + 1 == |r.order|)
    ensures Expire(r).Success?
    ensures var next := Expire(r).value.state;
            && Inv(next) && !next.finished && next.order == r.order
            && ActivePlayer(next) == Success(r.order[NextSeat(r)]) && r.order[NextSeat(r)] != r.order[r.activeIndex]
            && next.roundNumber == r.roundNumber + (if r.activeIndex + 1 < |r.order| then 0 else 1)
  {
    ExpireSound(r);
    YachtOutcomes.ExpireFollows(r);
    hide SubmissionsOk, RollsOk, Expire;
  }

  /** A chain that comes to a turn whose player is there sets its timer. */
  lemma AdvanceArms(ports: Ports, t: Table, completed: Option<Completion>)
    requires InPlay(t) && (forall r, b :: !ports.over(r, b))
    requires !ports.offline(ActivePlayer(t.round.value).value)
    ensures var c := AdvanceChain(ports, t, completed, Never);
            && c.stop.TurnStarted? && c.handles == 0 && c.table.round == t.round && c.table.misses == t.misses
            && c.table.armed == Some(Armed(t.round.value.roundNumber, ActivePlayer(t.round.value).value))
  {
    var n := EndedRound(t, completed);
    var forgotten := Forget(Cancel(t, n), n);
    StartArms(ports, forgotten);
    assert AdvanceChain(ports, t, completed, Never) == FinishOrStart(ports, forgotten, completed, Never);
    hide SubmissionsOk, RollsOk, StartTurn;
  }

  lemma StartArms(ports: Ports, t: Table)
    requires InPlay(t) && !ports.offline(ActivePlayer(t.round.value).value)
    ensures var c := StartTurn(ports, t, Never);
            && c.stop.TurnStarted? && c.handles == 0 && c.table.round == t.round && c.table.misses == t.misses
            && c.table.armed == Some(Armed(t.round.value.roundNumber, ActivePlayer(t.round.value).value))
  {
    hide SubmissionsOk, RollsOk;
  }

  lemma HandleOfFirst(ports: Ports, t: Table)
    requires AloneAway(ports, t) && Misses(t, ActivePlayer(t.round.value).value) == 0
    ensures var r := t.round.value; var p := ActivePlayer(r).value; var c := Handle(ports, t, Never);
            && c.stop.TurnStarted? && c.handles == 0
            && c.table.round == Some(Expire(r).value.state) && c.table.misses == t.misses[p := 1]
            && c.table.armed == Some(Armed(Expire(r).value.state.roundNumber, r.order[NextSeat(r)]))
  {
    hide SubmissionsOk, RollsOk, AdvanceChain, RemovePlayer, Expire;
    var r := t.round.value;
    PassedNext(r);
    var p := ActivePlayer(r).value;
    var passed := t.(misses := t.misses[p := 1], round := Some(Expire(r).value.state));
    AdvanceArms(ports, passed, Expire(r).value.completed);
  }

  /** The first turn a player misses in a row is only passed: they stay in the game, one miss down. */
  lemma FirstMissPasses(ports: Ports, t: Table)
    requires AloneAway(ports, t) && Misses(t, ActivePlayer(t.round.value).value) == 0
    ensures var r := t.round.value; var p := ActivePlayer(r).value; var c := StartTurn(ports, t, Never);
            && c.stop.TurnStarted? && c.handles == 1 && c.table.round.Some?
            && c.table.round.value.order == r.order && c.table.misses == t.misses[p := 1]
            && c.table.armed == Some(Armed(c.table.round.value.roundNumber, r.order[NextSeat(r)]))
            && c.table.round.value.roundNumber == r.roundNumber + (if r.activeIndex + 1 < |r.order| then 0 else 1)
  {
    PassedNext(t.round.value);
    HandleOfFirst(ports, t);
    hide SubmissionsOk, RollsOk, Handle, Expire, ArmTurn;
  }

  lemma HandleOfSecond(ports: Ports, t: Table)
    requires AloneAway(ports, t) && Misses(t, ActivePlayer(t.round.value).value) == 1
    ensures var r := t.round.value; var p := ActivePlayer(r).value; var c := Handle(ports, t, Never);
            && c.stop.TurnStarted? && c.handles == 0 && c.table.misses == t.misses - {p}
            && WithoutParticipant(Expire(r).value.state, p).Success?
            && c.table.round == Some(WithoutParticipant(Expire(r).value.state, p).value)
            && c.table.armed == Some(Armed(Expire(r).value.state.roundNumber, r.order[NextSeat(r)]))
  {
    hide SubmissionsOk, RollsOk, AdvanceChain, RemoveActive, Expire, WithoutParticipant;
    var r := t.round.value;
    var p := ActivePlayer(r).value;
    PassedNext(r);
    RemoveActiveSound(r, p);
    var next := Expire(r).value.state;
    WithoutParticipantInv(next, p);
    var counted := t.(misses := t.misses[p := 2]);
    assert Clear(counted, p).misses == t.misses - {p};
    var updated := Clear(counted, p).(round := Some(WithoutParticipant(next, p).value));
    AdvanceArms(ports, updated, Expire(r).value.completed);
    RemoveActiveIs(ports, Clear(counted, p), p);
    assert Handle(ports, t, Never) == RemovePlayer(ports, counted, p, Never);
  }

  lemma RemoveActiveIs(ports: Ports, t: Table, p: PlayerId)
    requires InPlay(t) && ActivePlayer(t.round.value) == Success(p) && |t.round.value.order| > 1
    ensures var r := t.round.value;
            && Expire(r).Success? && WithoutParticipant(Expire(r).value.state, p).Success?
            && var updated := t.(round := Some(WithoutParticipant(Expire(r).value.state, p).value));
            && Running(updated)
            && RemoveActive(ports, t, p, Never) == AdvanceChain(ports, updated, Expire(r).value.completed, Never)
  {
    hide SubmissionsOk, RollsOk, AdvanceChain, WithoutParticipant, AdvanceTurn;
    RemoveActiveSound(t.round.value, p);
  }

  /** The second removes them: nobody else leaves, and the next player has the turn. */
  lemma SecondMissRemoves(ports: Ports, t: Table)
    requires AloneAway(ports, t) && Misses(t, ActivePlayer(t.round.value).value) == 1
    ensures var r := t.round.value; var p := ActivePlayer(r).value; var c := StartTurn(ports, t, Never);
            && c.stop.TurnStarted? && c.handles == 1 && c.table.round.Some?
            && (forall q :: q in c.table.round.value.order <==> q in r.order && q != p)
            && c.table.misses == t.misses - {p}
            && c.table.armed == Some(Armed(c.table.round.value.roundNumber, r.order[NextSeat(r)]))
            && c.table.round.value.roundNumber == r.roundNumber + (if r.activeIndex + 1 < |r.order| then 0 else 1)
  {
    var r := t.round.value;
    var p := ActivePlayer(r).value;
    PassedNext(r);
    HandleOfSecond(ports, t);
    WithoutParticipantInv(Expire(r).value.state, p);
    hide SubmissionsOk, RollsOk, Handle, Expire, ArmTurn, WithoutParticipant;
  }

  // ---------------------------------------------------------------- restarts

  /** The deadline a timer waits for is stored. */
  predicate Stored(t: Table) {
    t.armed.Some? ==> t.saved == Some(t.armed.value.roundNumber)
  }

  /** The timer, if there is one, is for this round. */
  predicate TimerFor(t: Table, roundNumber: int) {
    Stored(t) && (t.armed.Some? ==> t.armed.value.roundNumber == roundNumber)
  }

  lemma StartStores(ports: Ports, t: Table, f: Fault)
    requires InPlay(t) && TimerFor(t, t.round.value.roundNumber)
    ensures Stored(StartTurn(ports, t, f).table)
    decreases Turns(t), 3
  {
    hide Handle, SubmissionsOk, Remaining, RollsOk;
    RemainingPositive(t.round.value);
    if !Hits(f) && ports.offline(ActivePlayer(t.round.value).value) {
      HandleStores(ports, t, Next(f));
    }
  }

  lemma HandleStores(ports: Ports, t: Table, f: Fault)
    requires InPlay(t) && TimerFor(t, t.round.value.roundNumber)
    ensures Stored(Handle(ports, t, f).table)
    decreases Turns(t), 2
  {
    hide AdvanceChain, RemovePlayer, SubmissionsOk, Remaining, RollsOk, AdvanceTurn;
    var r := t.round.value;
    var p := ActivePlayer(r).value;
    var counted := t.(misses := t.misses[p := Misses(t, p) + 1]);
    if Misses(counted, p) >= MAX_OFFLINE_TURNS {
      RemoveStores(ports, counted, p, f);
    } else {
      SkipSound(r);
      PassedDiffers(r, r.submissions);
      if !Hits(f) {
        AdvanceStores(ports, counted.(round := Some(Expire(r).value.state)), Expire(r).value.completed, Next(f));
      }
    }
  }

  lemma AdvanceStores(ports: Ports, t: Table, completed: Option<Completion>, f: Fault)
    requires Running(t) && TimerFor(t, EndedRound(t, completed))
    ensures Stored(AdvanceChain(ports, t, completed, f).table)
    decreases Turns(t), 5
  {
    hide FinishOrStart, SubmissionsOk, Remaining, RollsOk;
    if !Hits(f) {
      FinishStores(ports, Forget(Cancel(t, EndedRound(t, completed)), EndedRound(t, completed)), completed, Next(f));
    }
  }

  lemma FinishStores(ports: Ports, t: Table, completed: Option<Completion>, f: Fault)
    requires Running(t) && t.armed.None?
    ensures Stored(FinishOrStart(ports, t, completed, f).table)
    decreases Turns(t), 4
  {
    hide StartTurn, SubmissionsOk, Remaining, RollsOk;
    RemainingPositive(t.round.value);
    if !t.round.value.finished {
      StartStores(ports, t, if completed.Some? then Next(f) else f);
    }
  }

  lemma RemoveStores(ports: Ports, t: Table, p: PlayerId, f: Fault)
    requires t.round.Some? && Inv(t.round.value) && TimerFor(t, t.round.value.roundNumber)
    ensures Stored(RemovePlayer(ports, t, p, f).table)
    decreases Turns(t), 1
  {
    hide RemoveActive, SubmissionsOk, Remaining, RollsOk, Expire, WithoutParticipant;
    if InPlay(t) && ActivePlayer(t.round.value) == Success(p) && |t.round.value.order| > 1 {
      RemoveActiveStores(ports, Clear(t, p), p, Skip(f, 2));
    }
  }

  lemma RemoveActiveStores(ports: Ports, t: Table, p: PlayerId, f: Fault)
    requires InPlay(t) && ActivePlayer(t.round.value) == Success(p) && |t.round.value.order| > 1
    requires TimerFor(t, t.round.value.roundNumber)
    ensures Stored(RemoveActive(ports, t, p, f).table)
    decreases Turns(t), 0
  {
    hide AdvanceChain, SubmissionsOk, Remaining, RollsOk, AdvanceTurn, WithoutParticipant;
    var r := t.round.value;
    RemoveActiveSound(r, p);
    ExpireSound(r);
    PassedDiffers(r, r.submissions);
    WithoutKeepsRound(Expire(r).value.state, p);
    if !Hits(f) && !Hits(Next(f)) {
      var expired := Expire(r).value;
      AdvanceStores(ports, t.(round := Some(WithoutParticipant(expired.state, p).value)), expired.completed, Skip(f, 2));
    }
  }

  lemma FireStores(ports: Ports, t: Table, d: Deadline, fire: Fire, f: Fault)
    requires Fit(t) && DiceOk(fire.rolled)
    ensures Stored(ExpireTurn(ports, t, d, fire, f).table)
  {
    ResolveFit(t, d, fire, f);
    hide ResolveWith, StartTurn, AdvanceChain, Inv, Calls;
    var out := ResolveWith(t.round, d, fire.rolled, fire.scoring, f);
    var next := t.(round := out.stored, armed := None);
    var rest := Skip(f, Calls(t.round, d, fire.scoring));
    match out.resolution
    case AutoRolled(_) => StartStores(ports, next, rest);
    case Advanced(a) => AdvanceStores(ports, next, a.completed, rest);
    case _ =>
  }

  lemma RollStores(ports: Ports, t: Table, roll: Roll, f: Fault)
    requires Running(t) && TimerFor(t, t.round.value.roundNumber)
    ensures Stored(RollOn(ports, t, roll, f).table)
  {
    if RecordRoll(t.round.value, roll).Success? {
      RecordRollInv(t.round.value, roll);
      RollsKeepTurn(t.round.value, RollMove(roll));
      NotFinished(t.round.value, roll);
      hide RecordRoll, StartTurn, SubmissionsOk, RollsOk;
      if !Hits(f) {
        StartStores(ports, t.(round := Some(RecordRoll(t.round.value, roll).value)), Next(f));
      }
    }
  }

  lemma NotFinished(r: Round, roll: Roll)
    requires RecordRoll(r, roll).Success?
    ensures !RecordRoll(r, roll).value.finished
  {
  }

  lemma SubmitStores(ports: Ports, t: Table, s: Submission, f: Fault)
    requires Running(t) && TimerFor(t, t.round.value.roundNumber)
    ensures Stored(SubmitOn(ports, t, s, f).table)
  {
    if Submit(t.round.value, s).Success? {
      SubmitSound(t.round.value, s);
      PassedDiffers(t.round.value, t.round.value.submissions + [s]);
      hide Submit, AdvanceChain, SubmissionsOk, RollsOk, AdvanceTurn;
      var a := Submit(t.round.value, s).value;
      if !Hits(f) { AdvanceStores(ports, t.(round := Some(a.state)), a.completed, Next(f)); }
    }
  }

  lemma EventStores(t: Table, h: Happening)
    requires t.round.Some? && Sane(t) && Fair(h) && TimerFor(t, t.round.value.roundNumber)
    ensures Stored(Outcome(t, h).table)
  {
    hide ExpireTurn, RollOn, SubmitOn, RemovePlayer, StartTurn, Inv;
    var f := h.fault;
    match h.event
    case Fires(fire) =>
      if t.armed.Some? { FireStores(h.ports, t, Deadline(t.armed.value.roundNumber, t.armed.value.playerId), fire, f); }
    case Rolls(roll) => RollStores(h.ports, t, roll, f);
    case Submits(submission) => SubmitStores(h.ports, t, submission, f);
    case Leaves(p) => RemoveStores(h.ports, t, p, f);
    case Resumes => if !Hits(f) && !t.round.value.finished { StartStores(h.ports, t, Next(f)); }
    case _ =>
  }

  lemma {:induction false} RunStores(s: Session, hs: seq<Happening>)
    requires Proper(s) && Ticking(s) && (forall h :: h in hs ==> Fair(h)) && NeverLoses(s, hs) && Stored(s.table)
    ensures Stored(Happenings(s, hs).table)
    decreases |hs|
  {
    hide Proper, Ticking, Loses, Stored, Outcome;
    if hs != [] && !s.over {
      assert hs[0] in hs;
      ClockLostIff(s, hs[0]);
      TimerIsForRound(s);
      EventStores(s.table, hs[0]);
      RunStores(AfterFirst(s, hs), hs[1..]);
    }
  }

  lemma TimerIsForRound(s: Session)
    requires Proper(s) && Ticking(s) && !s.over && Stored(s.table)
    ensures s.table.round.Some? && Sane(s.table) && TimerFor(s.table, s.table.round.value.roundNumber)
  {
    hide Sane;
  }

  /**
   * A running game outlives the process: wherever a run that kept its clock has
   * come to, a restart with the store up goes on with the same turn, its dice and
   * its timer, and forgets nothing but missed turns.
   */
  lemma RestartGoesOn(ports: Ports, players: seq<PlayerId>, hs: seq<Happening>, closes: bool)
    requires Start(1, players, DEFAULT_TOTAL_ROUNDS).Success? && forall h :: h in hs ==> Fair(h)
    ensures Proper(Opening(ports, players)) && Ticking(Opening(ports, players))
    ensures NeverLoses(Opening(ports, players), hs) ==>
              var s := Happenings(Opening(ports, players), hs);
              !s.over && !s.paused ==>
                && s.table.round.Some?
                && Restart(s.table, closes, Never) == Chain(s.table.(misses := map[]), TurnStarted, 0)
  {
    OpeningTicks(ports, players);
    OpeningStores(ports, players);
    var s := Opening(ports, players);
    hide Opening, Start, Happenings, NeverLoses, Sane;
    if NeverLoses(s, hs) {
      RunStores(s, hs);
      var end := Happenings(s, hs);
      if !end.over && !end.paused {
        assert Clocked(end.table) && Stored(end.table);
        hide Proper, Ticking;
        SameTurnAgain(end.table, closes);
      }
    }
  }

  lemma SameTurnAgain(t: Table, closes: bool)
    requires Clocked(t) && Stored(t)
    ensures Restart(t, closes, Never) == Chain(t.(misses := map[]), TurnStarted, 0)
  {
  }

  /** Round, deadline, room and lifetime have to be read for it: if one of the four cannot, the room is closed or left without a timer. */
  lemma RestartIff(t: Table, closes: bool, f: Fault)
    requires Clocked(t) && Stored(t)
    ensures var c := Restart(t, closes, f);
            if f.In? && f.calls <= 3 then c == (if closes then Chain(EMPTY, Abandoned, 0) else Throw(t.(misses := map[], armed := None)))
            else c == Chain(t.(misses := map[]), TurnStarted, 0)
  {
  }

  lemma OpeningStores(ports: Ports, players: seq<PlayerId>)
    requires Start(1, players, DEFAULT_TOTAL_ROUNDS).Success?
    ensures Stored(Opening(ports, players).table)
  {
    StartInv(1, players, DEFAULT_TOTAL_ROUNDS);
    hide SubmissionsOk, RollsOk, StartTurn;
    StartStores(ports, EMPTY.(round := Some(Start(1, players, DEFAULT_TOTAL_ROUNDS).value)), Never);
  }

  // ---------------------------------------------------------------- one event

  /** The running turn of this round is this player's, and now has its timer and its deadline stored. */
  predicate TurnGoesOn(c: Chain, r: Round, misses: map<PlayerId, nat>) {
    && c.stop.TurnStarted? && ActivePlayer(r).Success?
    && c.table == Table(Some(r), misses, Some(Armed(r.roundNumber, ActivePlayer(r).value)), Some(r.roundNumber))
  }

  /** Whoever is to move in this round is there, and nobody declares the game over. */
  ghost predicate Attended(ports: Ports, r: Round) {
    && !r.finished && ActivePlayer(r).Success? && !ports.offline(ActivePlayer(r).value)
    && forall x, b :: !ports.over(x, b)
  }

  /**
   * What an event does when the store does not throw and whoever is to move is
   * there: play is recorded and the clock goes on, a hold or a return touches
   * nothing else, an empty room keeps its round and nothing besides.
   */
  ghost predicate EventRule(t: Table, h: Happening, c: Chain)
    requires t.round.Some? && Fair(h)
  {
    var r := t.round.value;
    match h.event
    case Holds(p, n, held) =>
      exists next | HoldRule(r, p, n, held, next) ::
        c.stop.NoTurn? && c.table == t.(round := Some(if next.Success? then next.value else r))
    case Reconnects(p) => c.stop.NoTurn? && c.table == t.(misses := t.misses - {p})
    case Pauses => c.stop.NoTurn? && c.table == Table(t.round, map[], None, None)
    case Rolls(roll) =>
      exists next | RollRule(r, roll, next) ::
        if next.Failure? then c.stop.NoTurn? && c.table == t
        else Attended(h.ports, next.value) ==> TurnGoesOn(c, next.value, t.misses)
    case Submits(s) =>
      exists next: Result<Advance, Error> | SubmitRule(r, s, next) ::
        if next.Failure? then c.stop.NoTurn? && c.table == t
        else Attended(h.ports, next.value.state) ==> TurnGoesOn(c, next.value.state, t.misses)
    case Resumes =>
      if r.finished then c.stop.NoTurn? && c.table == t else Attended(h.ports, r) ==> TurnGoesOn(c, r, t.misses)
    case Leaves(p) =>
      if r.finished || p !in r.order then c.stop.NoTurn? && c.table == t.(misses := t.misses - {p})
      else if |r.order| == 1 then c.stop.Abandoned? && c.table == Table(None, map[], None, None)
      else ActivePlayer(r) != Success(p) ==>
        && c.stop.NoTurn? && c.table.round.Some? && c.table == t.(round := c.table.round, misses := t.misses - {p})
        && (forall q :: q in c.table.round.value.order <==> q in r.order && q != p)
        && ActivePlayer(c.table.round.value) == ActivePlayer(r)
    case Fires(fire) =>
      if t.armed.None? then c.stop.NoTurn? && c.table == t
      else
        var d := Deadline(t.armed.value.roundNumber, t.armed.value.playerId);
        exists out | DeadlineRule(r, d, fire.rolled, fire.scoring, out) ::
          && out.stored.Some?
          && if out.resolution.Stale? then c.stop.NoTurn? && c.table == t.(round := out.stored, armed := None)
             else Attended(h.ports, out.stored.value) ==> TurnGoesOn(c, out.stored.value, t.misses)
    case Restarts(_) => true
  }

  lemma AttendedGoesOn(ports: Ports, r: Round)
    requires Attended(ports, r)
    ensures !r.finished
  {
  }

  lemma StartGoesOn(ports: Ports, t: Table)
    requires InPlay(t) && Attended(ports, t.round.value)
    ensures TurnGoesOn(StartTurn(ports, t, Never), t.round.value, t.misses)
  {
    hide SubmissionsOk, RollsOk;
  }

  lemma AdvanceGoesOn(ports: Ports, t: Table, completed: Option<Completion>)
    requires InPlay(t) && Attended(ports, t.round.value)
    ensures TurnGoesOn(AdvanceChain(ports, t, completed, Never), t.round.value, t.misses)
  {
    var n := EndedRound(t, completed);
    var forgotten := Forget(Cancel(t, n), n);
    StartGoesOn(ports, forgotten);
    assert AdvanceChain(ports, t, completed, Never) == FinishOrStart(ports, forgotten, completed, Never);
    hide SubmissionsOk, RollsOk, StartTurn;
  }

  lemma RollEvent(t: Table, h: Happening)
    requires t.round.Some? && Sane(t) && h.fault == Never && h.event.Rolls?
    ensures EventRule(t, h, Outcome(t, h))
  {
    var r, roll := t.round.value, h.event.roll;
    RollFollows(r, roll);
    if RecordRoll(r, roll).Success? {
      RecordRollInv(r, roll);
      var next := t.(round := Some(RecordRoll(r, roll).value));
      hide RecordRoll, RollRule, StartTurn, Attended, TurnGoesOn;
      if Attended(h.ports, next.round.value) {
        AttendedGoesOn(h.ports, next.round.value);
        StartGoesOn(h.ports, next);
      }
    }
    hide RecordRoll, RollRule, StartTurn, Attended, TurnGoesOn, Inv;
  }

  lemma SubmitEvent(t: Table, h: Happening)
    requires t.round.Some? && Sane(t) && h.fault == Never && h.event.Submits?
    ensures EventRule(t, h, Outcome(t, h))
  {
    var r, s := t.round.value, h.event.submission;
    SubmitFollows(r, s);
    if Submit(r, s).Success? {
      SubmitSound(r, s);
      var a := Submit(r, s).value;
      var next := t.(round := Some(a.state));
      hide Submit, SubmitRule, AdvanceChain, Attended, TurnGoesOn;
      if Attended(h.ports, a.state) {
        AttendedGoesOn(h.ports, next.round.value);
        AdvanceGoesOn(h.ports, next, a.completed);
      }
    }
    hide Submit, SubmitRule, AdvanceChain, Attended, TurnGoesOn, Inv;
  }

  lemma FireEvent(t: Table, h: Happening)
    requires t.round.Some? && Sane(t) && Fair(h) && h.fault == Never && h.event.Fires?
    ensures EventRule(t, h, Outcome(t, h))
  {
    if t.armed.Some? {
      var r, fire := t.round.value, h.event.fire;
      var d := Deadline(t.armed.value.roundNumber, t.armed.value.playerId);
      ResolveFit(t, d, fire, Never);
      ResolveSound(r, d, fire.rolled, fire.scoring);
      DeadlineFollows(r, d, fire.rolled, fire.scoring);
      var out := ResolveWith(t.round, d, fire.rolled, fire.scoring, Never);
      assert out == Resolve(t.round, d, fire.rolled, fire.scoring) && !out.resolution.Threw?;
      var next := t.(round := out.stored, armed := None);
      hide ResolveWith, Resolve, DeadlineRule, StartTurn, AdvanceChain, Attended, TurnGoesOn, Inv, Calls;
      if Attended(h.ports, out.stored.value) && !out.resolution.Stale? {
        AttendedGoesOn(h.ports, next.round.value);
        StartGoesOn(h.ports, next);
        if out.resolution.Advanced? { AdvanceGoesOn(h.ports, next, out.resolution.advanced.completed); }
      }
    }
  }

  lemma LeaveEvent(t: Table, h: Happening)
    requires t.round.Some? && Sane(t) && h.fault == Never && h.event.Leaves?
    ensures EventRule(t, h, Outcome(t, h))
  {
    WithoutParticipantInv(t.round.value, h.event.playerId);
    hide SubmissionsOk, RollsOk, WithoutParticipant, RemoveActive;
  }

  lemma EventFollows(t: Table, h: Happening)
    requires t.round.Some? && Sane(t) && Fair(h) && h.fault == Never
    ensures EventRule(t, h, Outcome(t, h))
  {
    match h.event
    case Rolls(_) => RollEvent(t, h);
    case Submits(_) => SubmitEvent(t, h);
    case Fires(_) => FireEvent(t, h);
    case Leaves(_) => LeaveEvent(t, h);
    case Holds(p, n, held) =>
      HoldFollows(t.round.value, p, n, held);
      hide HoldRule, RecordHold, Inv;
    case Resumes =>
      hide StartTurn, Attended, TurnGoesOn, Inv;
      if !t.round.value.finished && Attended(h.ports, t.round.value) { StartGoesOn(h.ports, t); }
    case _ =>
  }
}
