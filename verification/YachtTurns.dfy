/**
 * Yacht: starting a turn, skipping and removing offline players, and the chain
 * start -> handle -> expire or remove -> advance -> start they form. Any of the
 * store calls it makes may throw, which ends it where it stands.
 */
module YachtTurns {
  import opened Wrappers
  import opened StoreFaults
  import opened YachtRound

  const MAX_OFFLINE_TURNS := 2

  /** What the chain asks of the outside: who has no connection, and whether the game was declared over. */
  datatype Ports = Ports(offline: PlayerId -> bool, over: (Round, bool) -> bool)

  datatype Armed = Armed(roundNumber: int, playerId: PlayerId)

  /**
   * One room: its stored round, the offline turns counted against players, the
   * turn with a timer, and the round whose deadline is stored for a restart.
   */
  datatype Table = Table(round: Option<Round>, misses: map<PlayerId, nat>, armed: Option<Armed>, saved: Option<int>)

  const EMPTY := Table(None, map[], None, None)

  /** How a chain stops: a turn with its timer, no chain at all, the game over, the cap, an abandoned room, or a throw. */
  datatype Stop = TurnStarted | NoTurn | GameOver | CapReached | Abandoned | Thrown

  datatype Chain = Chain(table: Table, stop: Stop, handles: nat)

  function Misses(t: Table, p: PlayerId): nat {
    if p in t.misses then t.misses[p] else 0
  }

  function Clear(t: Table, p: PlayerId): Table {
    t.(misses := t.misses - {p})
  }

  function Cancel(t: Table, roundNumber: int): Table {
    if t.armed.Some? && t.armed.value.roundNumber == roundNumber then t.(armed := None) else t
  }

  /** The deadline stored for a restart goes with the round it was stored for. */
  function Forget(t: Table, roundNumber: int): Table {
    if t.saved == Some(roundNumber) then t.(saved := None) else t
  }

  function Throw(t: Table): Chain {
    Chain(t, Thrown, 0)
  }

  ghost predicate Running(t: Table) {
    t.round.Some? && Inv(t.round.value)
  }

  function Turns(t: Table): int {
    if t.round.Some? then Remaining(t.round.value) else 0
  }

  ghost predicate InPlay(t: Table) {
    Running(t) && !t.round.value.finished
  }

  function EndedRound(t: Table, completed: Option<Completion>): int
    requires t.round.Some?
  {
    if completed.Some? then completed.value.roundNumber else t.round.value.roundNumber
  }

  /** The roster is read; an absent player's turn is handled, any other gets its timer. */
  ghost function StartTurn(ports: Ports, t: Table, f: Fault): Chain
    requires InPlay(t)
    decreases Turns(t), 3
  {
    RemainingPositive(t.round.value);
    if Hits(f) then Throw(t)
    else if ports.offline(ActivePlayer(t.round.value).value) then
      var c := Handle(ports, t, Next(f));
      c.(handles := c.handles + 1)
    else ArmTurn(t, Next(f))
  }

  /** The room's lifetime is renewed, the deadline is stored, and only then the timer is set. */
  function ArmTurn(t: Table, f: Fault): Chain
    requires t.round.Some? && ActivePlayer(t.round.value).Success?
  {
    var r := t.round.value;
    var stored := t.(saved := Some(r.roundNumber));
    if Hits(f) then Throw(t)
    else if Hits(Next(f)) then Throw(if f.done then stored else t)
    else Chain(stored.(armed := Some(Armed(r.roundNumber, ActivePlayer(r).value))), TurnStarted, 0)
  }

  /** The first offline turn is skipped without a score, the second removes the player. */
  ghost function Handle(ports: Ports, t: Table, f: Fault): Chain
    requires InPlay(t)
    decreases Turns(t), 2
  {
    var r := t.round.value;
    var p := ActivePlayer(r).value;
    var counted := t.(misses := t.misses[p := Misses(t, p) + 1]);
    if Misses(counted, p) >= MAX_OFFLINE_TURNS then RemovePlayer(ports, counted, p, f)
    else
      ExpireSound(r);
      var expired := Expire(r).value;
      var passed := counted.(round := Some(expired.state));
      if Hits(f) then Throw(if f.done then passed else counted)
      else AdvanceChain(ports, passed, expired.completed, Next(f))
  }

  /** The old timer goes first, then its stored deadline. */
  ghost function AdvanceChain(ports: Ports, t: Table, completed: Option<Completion>, f: Fault): Chain
    requires Running(t)
    decreases Turns(t), 5
  {
    var cancelled := Cancel(t, EndedRound(t, completed));
    var forgotten := Forget(cancelled, EndedRound(t, completed));
    if Hits(f) then Throw(if f.done then forgotten else cancelled)
    else FinishOrStart(ports, forgotten, completed, Next(f))
  }

  /** A completed round may end the game; a throw that comes after it has ended the game does not take that back. */
  ghost function FinishOrStart(ports: Ports, t: Table, completed: Option<Completion>, f: Fault): Chain
    requires Running(t)
    decreases Turns(t), 4
  {
    var r := t.round.value;
    var over := completed.Some? && ports.over(r, completed.value.gameCompleted);
    if completed.Some? && Hits(f) then (if f.done && over then Chain(t, GameOver, 0) else Throw(t))
    else if over then Chain(t, GameOver, 0)
    else if r.finished then Chain(t, CapReached, 0)
    else StartTurn(ports, t, if completed.Some? then Next(f) else f)
  }

  /**
   * The player leaves the room and the stored round is read. The last one out
   * takes the timer, the stored deadline and then the round along; the active
   * player's turn is passed before they are taken out.
   */
  ghost function RemovePlayer(ports: Ports, t: Table, p: PlayerId, f: Fault): Chain
    requires t.round.Some? ==> Inv(t.round.value)
    decreases Turns(t), 1
  {
    var cleared := Clear(t, p);
    if Hits(f) || Hits(Next(f)) then Throw(cleared)
    else if t.round.None? || t.round.value.finished || p !in t.round.value.order then Chain(cleared, NoTurn, 0)
    else
      var r := t.round.value;
      if |r.order| == 1 then Abandon(t, Next(Next(f)))
      else if ActivePlayer(r).value == p then
        RemoveActiveSound(r, p);
        RemoveActive(ports, cleared, p, Next(Next(f)))
      else
        WithoutParticipantInv(r, p);
        var left := cleared.(round := Some(WithoutParticipant(r, p).value));
        if Hits(Next(Next(f))) then Throw(if f.done then left else cleared) else Chain(left, NoTurn, 0)
  }

  function Abandon(t: Table, f: Fault): Chain {
    var stopped := t.(misses := map[], armed := None);
    if Hits(f) then Throw(if f.done then stopped.(saved := None) else stopped)
    else if Hits(Next(f)) && !f.done then Throw(stopped.(saved := None))
    else Chain(EMPTY, Abandoned, 0)
  }

  ghost function RemoveActive(ports: Ports, t: Table, p: PlayerId, f: Fault): Chain
    requires InPlay(t) && ActivePlayer(t.round.value) == Success(p) && |t.round.value.order| > 1
    decreases Turns(t), 0
  {
    var r := t.round.value;
    RemoveActiveSound(r, p);
    var expired := Expire(r).value;
    var passed := t.(round := Some(expired.state));
    var updated := t.(round := Some(WithoutParticipant(expired.state, p).value));
    if Hits(f) then Throw(if f.done then passed else t)
    else if Hits(Next(f)) then Throw(if f.done then updated else passed)
    else AdvanceChain(ports, updated, expired.completed, Next(Next(f)))
  }

  /** Removing the active player: their turn passes first, so the removal is never refused, and turns fall. */
  lemma RemoveActiveSound(r: Round, p: PlayerId)
    requires Inv(r) && !r.finished && ActivePlayer(r) == Success(p) && |r.order| > 1
    ensures Expire(r).Success?
    ensures var next := Expire(r).value.state;
            && WithoutParticipant(next, p).Success?
            && var updated := WithoutParticipant(next, p).value;
            && Inv(updated) && 0 <= Remaining(updated) < Remaining(r)
            && (updated.finished <==> next.finished)
            && (if next.finished then updated == next else (forall q :: q in updated.order <==> q in r.order && q != p))
  {
    ExpireSound(r);
    var next := Expire(r).value.state;
    WithoutParticipantInv(next, p);
    if !next.finished {
      AdvanceTurnSound(r, r.submissions);
      WithoutParticipantTurns(next, p);
    }
    hide Remaining;
    RemainingPositive(WithoutParticipant(next, p).value);
  }

  // ---------------------------------------------------------------------------
  // The same, changing the table in place.

  class TurnTimer {
    var round: Option<Round>
    var misses: map<PlayerId, nat>
    var armed: Option<Armed>
    var saved: Option<int>
    const ports: Ports

    constructor (ports: Ports)
      ensures this.ports == ports && Snapshot() == EMPTY
    {
      this.ports := ports;
      round, misses, armed, saved := None, map[], None, None;
    }

    function Snapshot(): Table
      reads this
    {
      Table(round, misses, armed, saved)
    }

    method Begin(f: Fault) returns (stop: Stop, ghost handles: nat)
      requires InPlay(Snapshot())
      modifies this
      ensures Chain(Snapshot(), stop, handles) == StartTurn(ports, old(Snapshot()), f)
      decreases Turns(Snapshot()), 3
    {
      RemainingPositive(round.value);
      if Hits(f) { return Thrown, 0; }
      if ports.offline(ActivePlayer(round.value).value) {
        stop, handles := HandleOffline(Next(f));
        handles := handles + 1;
      } else {
        stop, handles := Arm(Next(f));
      }
    }

    method Arm(f: Fault) returns (stop: Stop, ghost handles: nat)
      requires round.Some? && ActivePlayer(round.value).Success?
      modifies this
      ensures Chain(Snapshot(), stop, handles) == ArmTurn(old(Snapshot()), f)
    {
      if Hits(f) { return Thrown, 0; }
      var rest := Next(f);
      if !Hits(rest) || rest.done { saved := Some(round.value.roundNumber); }
      if Hits(rest) { return Thrown, 0; }
      armed := Some(Armed(round.value.roundNumber, ActivePlayer(round.value).value));
      return TurnStarted, 0;
    }

    method HandleOffline(f: Fault) returns (stop: Stop, ghost handles: nat)
      requires InPlay(Snapshot())
      modifies this
      ensures Chain(Snapshot(), stop, handles) == Handle(ports, old(Snapshot()), f)
      decreases Turns(Snapshot()), 2
    {
      hide AdvanceChain, RemovePlayer, SubmissionsOk, RollsOk;
      var p := ActivePlayer(round.value).value;
      var count := (if p in misses then misses[p] else 0) + 1;
      misses := misses[p := count];
      if count >= MAX_OFFLINE_TURNS {
        stop, handles := Remove(p, f);
      } else {
        ExpireSound(round.value);
        var expired := Expire(round.value).value;
        if !Hits(f) || f.done { round := Some(expired.state); }
        if Hits(f) { return Thrown, 0; }
        stop, handles := AdvanceTo(expired.completed, Next(f));
      }
    }

    method AdvanceTo(completed: Option<Completion>, f: Fault) returns (stop: Stop, ghost handles: nat)
      requires Running(Snapshot())
      modifies this
      ensures Chain(Snapshot(), stop, handles) == AdvanceChain(ports, old(Snapshot()), completed, f)
      decreases Turns(Snapshot()), 5
    {
      var ended := if completed.Some? then completed.value.roundNumber else round.value.roundNumber;
      if armed.Some? && armed.value.roundNumber == ended { armed := None; }
      if (!Hits(f) || f.done) && saved == Some(ended) { saved := None; }
      if Hits(f) { return Thrown, 0; }
      var rest := Next(f);
      if completed.Some? {
        var over := ports.over(round.value, completed.value.gameCompleted);
        if Hits(rest) && !(rest.done && over) { return Thrown, 0; }
        if over { return GameOver, 0; }
        rest := Next(rest);
      }
      if round.value.finished { return CapReached, 0; }
      stop, handles := Begin(rest);
    }

    method Remove(p: PlayerId, f: Fault) returns (stop: Stop, ghost handles: nat)
      requires round.Some? ==> Inv(round.value)
      modifies this
      ensures Chain(Snapshot(), stop, handles) == RemovePlayer(ports, old(Snapshot()), p, f)
      decreases Turns(Snapshot()), 1
    {
      hide AdvanceChain, SubmissionsOk, RollsOk;
      misses := misses - {p};
      if Hits(f) || Hits(Next(f)) { return Thrown, 0; }
      if round.None? || round.value.finished || p !in round.value.order { return NoTurn, 0; }
      var rest := Next(Next(f));
      if |round.value.order| == 1 {
        stop := GiveUp(rest);
        return stop, 0;
      }
      if ActivePlayer(round.value).value == p {
        RemoveActiveSound(round.value, p);
        stop, handles := RemoveRunning(p, rest);
      } else {
        WithoutParticipantInv(round.value, p);
        if !Hits(rest) || rest.done { round := Some(WithoutParticipant(round.value, p).value); }
        return if Hits(rest) then Thrown else NoTurn, 0;
      }
    }

    /** The timer, the stored deadline and the round, in this order. */
    method GiveUp(f: Fault) returns (stop: Stop)
      requires round.Some?
      modifies this
      ensures Chain(Snapshot(), stop, 0) == Abandon(old(Snapshot()), f)
    {
      armed, misses := None, map[];
      if !Hits(f) || f.done { saved := None; }
      if Hits(f) { return Thrown; }
      var rest := Next(f);
      if Hits(rest) && !rest.done { return Thrown; }
      round := None;
      return Abandoned;
    }

    method RemoveRunning(p: PlayerId, f: Fault) returns (stop: Stop, ghost handles: nat)
      requires InPlay(Snapshot()) && ActivePlayer(round.value) == Success(p) && |round.value.order| > 1
      modifies this
      ensures Chain(Snapshot(), stop, handles) == RemoveActive(ports, old(Snapshot()), p, f)
      decreases Turns(Snapshot()), 0
    {
      hide AdvanceChain, SubmissionsOk, RollsOk;
      RemoveActiveSound(round.value, p);
      var expired := Expire(round.value).value;
      if !Hits(f) || f.done { round := Some(expired.state); }
      if Hits(f) { return Thrown, 0; }
      var rest := Next(f);
      if !Hits(rest) || rest.done { round := Some(WithoutParticipant(expired.state, p).value); }
      if Hits(rest) { return Thrown, 0; }
      stop, handles := AdvanceTo(expired.completed, Next(rest));
    }
  }

  // ---------------------------------------------------------------------------
  // The chain is short.

  ghost predicate Sane(t: Table) {
    Running(t) && forall p :: p in t.round.value.order ==> Misses(t, p) < MAX_OFFLINE_TURNS
  }

  /** The offline turns the players may still take before all are removed. */
  function Spare(order: seq<PlayerId>, misses: map<PlayerId, nat>): int {
    if order == [] then 0
    else MAX_OFFLINE_TURNS - (if order[0] in misses then misses[order[0]] else 0) + Spare(order[1..], misses)
  }

  lemma {:induction false} SpareAgrees(order: seq<PlayerId>, misses: map<PlayerId, nat>, misses': map<PlayerId, nat>)
    requires forall p :: p in order ==> (p in misses <==> p in misses')
    requires forall p :: p in order && p in misses ==> misses[p] == misses'[p]
    ensures Spare(order, misses') == Spare(order, misses)
  {
    if order != [] {
      SpareAgrees(order[1..], misses, misses');
    }
  }

  lemma {:induction false} SpareNonNegative(order: seq<PlayerId>, misses: map<PlayerId, nat>)
    requires forall p :: p in order && p in misses ==> misses[p] <= MAX_OFFLINE_TURNS
    ensures Spare(order, misses) >= 0
  {
    if order != [] {
      SpareNonNegative(order[1..], misses);
    }
  }

  lemma {:induction false} SpareOfFresh(order: seq<PlayerId>)
    ensures Spare(order, map[]) == MAX_OFFLINE_TURNS * |order|
  {
    if order != [] {
      SpareOfFresh(order[1..]);
    }
  }

  /** Taking a player out takes out what they had left. */
  lemma {:induction false} SpareWithout(order: seq<PlayerId>, misses: map<PlayerId, nat>, p: PlayerId)
    requires Distinct(order) && p in order
    ensures var k := IndexOf(order, p);
            Spare(order, misses)
            == Spare(order[..k] + order[k + 1..], misses) + MAX_OFFLINE_TURNS - (if p in misses then misses[p] else 0)
  {
    var k := IndexOf(order, p);
    var rest := order[..k] + order[k + 1..];
    if k == 0 {
      assert rest == order[1..];
    } else {
      assert order[1..][..k - 1] + order[1..][k..] == rest[1..];
      assert IndexOf(order[1..], p) == k - 1;
      SpareWithout(order[1..], misses, p);
    }
  }

  /** Counting one more miss takes one. */
  lemma SpareCounted(order: seq<PlayerId>, misses: map<PlayerId, nat>, p: PlayerId)
    requires Distinct(order) && p in order
    ensures var count := (if p in misses then misses[p] else 0) + 1;
            Spare(order, misses[p := count]) == Spare(order, misses) - 1
  {
    var counted := misses[p := (if p in misses then misses[p] else 0) + 1];
    var k := IndexOf(order, p);
    SpareWithout(order, misses, p);
    SpareWithout(order, counted, p);
    RemovedMembers(order, p);
    SpareAgrees(order[..k] + order[k + 1..], misses, counted);
  }

  function SpareOn(t: Table): int {
    if t.round.Some? then Spare(t.round.value.order, t.misses) else 0
  }

  ghost predicate AllOffline(ports: Ports, t: Table) {
    t.round.Some? ==> forall p :: p in t.round.value.order ==> ports.offline(p)
  }

  /** A chain ends with a timer on a player who is there, or for good, or where a store call threw. */
  ghost predicate WellEnded(ports: Ports, allOffline: bool, c: Chain, mayThrow: bool) {
    && (c.stop.TurnStarted? ==>
          && InPlay(c.table) && !allOffline
          && var r := c.table.round.value;
          && !ports.offline(ActivePlayer(r).value)
          && c.table.armed == Some(Armed(r.roundNumber, ActivePlayer(r).value)))
    && (c.stop.CapReached? ==> Running(c.table) && c.table.round.value.finished)
    && (if c.stop.Abandoned? then c.table == EMPTY else Sane(c.table))
    && (c.stop.Thrown? ==> mayThrow)
    && !c.stop.NoTurn?
  }

  /** Every handled turn is a turn gone and a miss spent; a throw can cut the last one short. */
  ghost predicate Bounded(ports: Ports, t: Table, c: Chain, extra: nat, mayThrow: bool) {
    && c.handles + extra <= SpareOn(t)
    && 0 <= Turns(c.table) <= Turns(t) - c.handles - extra + (if c.stop.Thrown? then 1 else 0)
    && (c.table.round == t.round || Turns(c.table) < Turns(t))
    && WellEnded(ports, AllOffline(ports, t), c, mayThrow)
  }

  lemma StartBounded(ports: Ports, t: Table, f: Fault)
    requires InPlay(t) && Sane(t)
    ensures Bounded(ports, t, StartTurn(ports, t, f), 0, f.In?)
    decreases Turns(t), 3
  {
    hide Handle, Spare, SubmissionsOk, Remaining, RollsOk;
    var r := t.round.value;
    RemainingPositive(r);
    SpareNonNegative(r.order, t.misses);
    assert ActivePlayer(r).value in r.order;
    if !Hits(f) && ports.offline(ActivePlayer(r).value) {
      HandleBounded(ports, t, Next(f));
    }
  }

  lemma HandleBounded(ports: Ports, t: Table, f: Fault)
    requires InPlay(t) && Sane(t)
    ensures Bounded(ports, t, Handle(ports, t, f), 1, f.In?)
    decreases Turns(t), 2
  {
    hide AdvanceChain, RemovePlayer, Spare, WellEnded, SubmissionsOk, Remaining, RollsOk, Expire;
    var r := t.round.value;
    var p := ActivePlayer(r).value;
    var counted := t.(misses := t.misses[p := Misses(t, p) + 1]);
    SpareCounted(r.order, t.misses, p);
    if Misses(counted, p) >= MAX_OFFLINE_TURNS {
      RemoveBounded(ports, counted, p, f);
    } else {
      SkipSound(r);
      var expired := Expire(r).value;
      var passed := counted.(round := Some(expired.state));
      RemainingPositive(r);
      SpareNonNegative(r.order, counted.misses);
      if Hits(f) {
        ThrowsSane(ports, t, f, if f.done then passed else counted);
      } else {
        AdvanceBounded(ports, passed, expired.completed, Next(f));
      }
    }
  }

  lemma ThrowsSane(ports: Ports, t: Table, f: Fault, t': Table)
    requires f.In? && Sane(t')
    ensures WellEnded(ports, AllOffline(ports, t), Throw(t'), f.In?)
  {
  }

  lemma SkipSound(r: Round)
    requires Inv(r) && !r.finished
    ensures Expire(r).Success? && Inv(Expire(r).value.state) && Expire(r).value.state.order == r.order
    ensures 0 <= Remaining(Expire(r).value.state) == Remaining(r) - 1
  {
    ExpireSound(r);
    RemainingPositive(Expire(r).value.state);
  }

  lemma AdvanceBounded(ports: Ports, t: Table, completed: Option<Completion>, f: Fault)
    requires Sane(t)
    ensures Bounded(ports, t, AdvanceChain(ports, t, completed, f), 0, f.In?)
    decreases Turns(t), 5
  {
    hide FinishOrStart, Spare, SubmissionsOk, Remaining, RollsOk;
    var forgotten := Forget(Cancel(t, EndedRound(t, completed)), EndedRound(t, completed));
    RemainingPositive(t.round.value);
    SpareNonNegative(t.round.value.order, t.misses);
    if !Hits(f) {
      FinishBounded(ports, forgotten, completed, Next(f));
    }
  }

  lemma FinishBounded(ports: Ports, t: Table, completed: Option<Completion>, f: Fault)
    requires Sane(t)
    ensures Bounded(ports, t, FinishOrStart(ports, t, completed, f), 0, f.In?)
    decreases Turns(t), 4
  {
    hide StartTurn, Spare, SubmissionsOk, Remaining, RollsOk;
    RemainingPositive(t.round.value);
    SpareNonNegative(t.round.value.order, t.misses);
    if !t.round.value.finished {
      StartBounded(ports, t, if completed.Some? then Next(f) else f);
    }
  }

  /** At the last miss: everyone else still has theirs, and the removed player had just used up the last one. */
  lemma RemoveBounded(ports: Ports, t: Table, p: PlayerId, f: Fault)
    requires InPlay(t) && ActivePlayer(t.round.value) == Success(p) && Misses(t, p) == MAX_OFFLINE_TURNS
    requires forall q :: q in t.round.value.order && q != p ==> Misses(t, q) < MAX_OFFLINE_TURNS
    ensures var c := RemovePlayer(ports, t, p, f);
            && c.handles <= SpareOn(t)
            && 0 <= Turns(c.table) <= Turns(t) - c.handles - 1 + (if c.stop.Thrown? then 1 else 0)
            && (c.table.round == t.round || Turns(c.table) < Turns(t))
            && WellEnded(ports, AllOffline(ports, t), c, f.In?)
    decreases Turns(t), 1
  {
    hide RemoveActive, Spare, SubmissionsOk, Remaining, RollsOk, Expire, WithoutParticipant;
    var r := t.round.value;
    RemainingPositive(r);
    SpareNonNegative(r.order, t.misses);
    assert Sane(Clear(t, p));
    if !Hits(f) && !Hits(Next(f)) && |r.order| > 1 {
      RemoveActiveBounded(ports, t, p, Next(Next(f)));
    }
  }

  lemma RemoveActiveBounded(ports: Ports, t: Table, p: PlayerId, f: Fault)
    requires InPlay(t) && ActivePlayer(t.round.value) == Success(p) && Misses(t, p) == MAX_OFFLINE_TURNS
    requires |t.round.value.order| > 1
    requires forall q :: q in t.round.value.order && q != p ==> Misses(t, q) < MAX_OFFLINE_TURNS
    ensures var c := RemoveActive(ports, Clear(t, p), p, f);
            && c.handles <= SpareOn(t)
            && 0 <= Turns(c.table) <= Turns(t) - c.handles - 1 + (if c.stop.Thrown? then 1 else 0)
            && (c.table.round == t.round || Turns(c.table) < Turns(t))
            && WellEnded(ports, AllOffline(ports, t), c, f.In?)
    decreases Turns(t), 0
  {
    hide AdvanceChain, Spare, SubmissionsOk, Remaining, RollsOk, Expire, WithoutParticipant;
    var r := t.round.value;
    RemainingPositive(r);
    SpareNonNegative(r.order, t.misses);
    RemoveActiveSound(r, p);
    SkipSound(r);
    var expired := Expire(r).value;
    var updated := WithoutParticipant(expired.state, p).value;
    if !Hits(f) && !Hits(Next(f)) {
      if expired.state.finished {
        RemovedAtCap(ports, t, p, f);
      } else {
        SpareAfterRemoval(t, p);
        AdvanceBounded(ports, Clear(t, p).(round := Some(updated)), expired.completed, Next(Next(f)));
      }
    }
  }

  /** Out of turns: the last turn of the last round was the removed player's. */
  lemma RemovedAtCap(ports: Ports, t: Table, p: PlayerId, f: Fault)
    requires InPlay(t) && ActivePlayer(t.round.value) == Success(p) && |t.round.value.order| > 1
    requires Expire(t.round.value).Success? && Expire(t.round.value).value.state.finished
    requires !Hits(f) && !Hits(Next(f)) && Sane(Clear(t, p))
    ensures var c := RemoveActive(ports, Clear(t, p), p, f);
            c.handles == 0 && Turns(c.table) == 0 && WellEnded(ports, AllOffline(ports, t), c, f.In?)
  {
    var r := t.round.value;
    RemoveActiveSound(r, p);
    SkipSound(r);
    var expired := Expire(r).value;
    var next := Clear(t, p).(round := Some(WithoutParticipant(expired.state, p).value));
    hide SubmissionsOk, RollsOk, AdvanceChain, Expire, WithoutParticipant;
    FinishedStops(ports, next, expired.completed, Next(Next(f)));
  }

  lemma FinishedStops(ports: Ports, t: Table, completed: Option<Completion>, f: Fault)
    requires Sane(t) && t.round.value.finished
    ensures var c := AdvanceChain(ports, t, completed, f);
            && c.handles == 0 && c.table.round == t.round && c.table.misses == t.misses
            && (c.stop.GameOver? || c.stop.CapReached? || (c.stop.Thrown? && f.In?))
  {
    hide SubmissionsOk, RollsOk;
    var forgotten := Forget(Cancel(t, EndedRound(t, completed)), EndedRound(t, completed));
    assert Hits(f) || AdvanceChain(ports, t, completed, f) == FinishOrStart(ports, forgotten, completed, Next(f));
  }

  lemma SpareAfterRemoval(t: Table, p: PlayerId)
    requires InPlay(t) && ActivePlayer(t.round.value) == Success(p) && |t.round.value.order| > 1
    requires Misses(t, p) == MAX_OFFLINE_TURNS
    requires Expire(t.round.value).Success? && !Expire(t.round.value).value.state.finished
    ensures WithoutParticipant(Expire(t.round.value).value.state, p).Success?
    ensures Spare(WithoutParticipant(Expire(t.round.value).value.state, p).value.order, t.misses - {p}) == SpareOn(t)
  {
    hide Spare, Remaining, SubmissionsOk, RollsOk, Expire, WithoutParticipant;
    var r := t.round.value;
    OrderAfterRemoval(r, p);
    var k := IndexOf(r.order, p);
    SpareWithout(r.order, t.misses, p);
    RemovedMembers(r.order, p);
    SpareAgrees(r.order[..k] + r.order[k + 1..], t.misses, t.misses - {p});
  }

  lemma OrderAfterRemoval(r: Round, p: PlayerId)
    requires Inv(r) && !r.finished && ActivePlayer(r) == Success(p) && |r.order| > 1
    requires Expire(r).Success? && !Expire(r).value.state.finished
    ensures p in r.order && WithoutParticipant(Expire(r).value.state, p).Success?
    ensures WithoutParticipant(Expire(r).value.state, p).value.order
            == r.order[..IndexOf(r.order, p)] + r.order[IndexOf(r.order, p) + 1..]
  {
    RemoveActiveSound(r, p);
    AdvanceTurnSound(r, r.submissions);
    hide Remaining, SubmissionsOk, RollsOk;
  }

  /**
   * With everyone offline, no misses counted yet and a store that does not throw,
   * a chain handles at most two turns a player and ends with the game over,
   * capped or abandoned.
   */
  lemma EveryoneOfflineEnds(ports: Ports, r: Round)
    requires Inv(r) && !r.finished
    requires forall p :: p in r.order ==> ports.offline(p)
    ensures var c := StartTurn(ports, EMPTY.(round := Some(r)), Never);
            && c.handles <= 2 * |r.order| && c.handles <= Remaining(r)
            && (c.stop.GameOver? || c.stop.CapReached? || c.stop.Abandoned?)
  {
    hide StartTurn, SubmissionsOk, RollsOk, Remaining, Spare;
    StartBounded(ports, EMPTY.(round := Some(r)), Never);
    SpareOfFresh(r.order);
  }

  // ---------------------------------------------------------------------------
  // Timers.

  /** A chain that starts without a timer sets one exactly when it comes to start a turn. */
  ghost predicate SetsOneTimer(c: Chain) {
    c.table.armed.Some? <==> c.stop.TurnStarted?
  }

  lemma StartSets(ports: Ports, t: Table, f: Fault)
    requires InPlay(t) && t.armed.None?
    ensures SetsOneTimer(StartTurn(ports, t, f))
    decreases Turns(t), 3
  {
    hide Handle, SubmissionsOk, Remaining, RollsOk;
    RemainingPositive(t.round.value);
    if !Hits(f) && ports.offline(ActivePlayer(t.round.value).value) {
      HandleSets(ports, t, Next(f));
    }
  }

  lemma HandleSets(ports: Ports, t: Table, f: Fault)
    requires InPlay(t) && t.armed.None?
    ensures SetsOneTimer(Handle(ports, t, f))
    decreases Turns(t), 2
  {
    hide AdvanceChain, RemovePlayer, SubmissionsOk, Remaining, RollsOk, Expire;
    var r := t.round.value;
    var p := ActivePlayer(r).value;
    var counted := t.(misses := t.misses[p := Misses(t, p) + 1]);
    if Misses(counted, p) >= MAX_OFFLINE_TURNS {
      RemoveSets(ports, counted, p, f);
    } else {
      SkipSound(r);
      if !Hits(f) {
        AdvanceSets(ports, counted.(round := Some(Expire(r).value.state)), Expire(r).value.completed, Next(f));
      }
    }
  }

  /** The timer of the round that ended, if it is still there, goes first. */
  lemma AdvanceSets(ports: Ports, t: Table, completed: Option<Completion>, f: Fault)
    requires Running(t) && (t.armed.Some? ==> t.armed.value.roundNumber == EndedRound(t, completed))
    ensures SetsOneTimer(AdvanceChain(ports, t, completed, f))
    decreases Turns(t), 5
  {
    hide FinishOrStart, SubmissionsOk, Remaining, RollsOk;
    if !Hits(f) {
      FinishSets(ports, Forget(Cancel(t, EndedRound(t, completed)), EndedRound(t, completed)), completed, Next(f));
    }
  }

  lemma FinishSets(ports: Ports, t: Table, completed: Option<Completion>, f: Fault)
    requires Running(t) && t.armed.None?
    ensures SetsOneTimer(FinishOrStart(ports, t, completed, f))
    decreases Turns(t), 4
  {
    hide StartTurn, SubmissionsOk, Remaining, RollsOk;
    RemainingPositive(t.round.value);
    if !t.round.value.finished {
      StartSets(ports, t, if completed.Some? then Next(f) else f);
    }
  }

  lemma RemoveSets(ports: Ports, t: Table, p: PlayerId, f: Fault)
    requires (t.round.Some? ==> Inv(t.round.value)) && t.armed.None?
    ensures SetsOneTimer(RemovePlayer(ports, t, p, f))
    decreases Turns(t), 1
  {
    hide RemoveActive, SubmissionsOk, Remaining, RollsOk, Expire, WithoutParticipant;
    if InPlay(t) && ActivePlayer(t.round.value) == Success(p) && |t.round.value.order| > 1 {
      RemoveActiveSets(ports, Clear(t, p), p, Skip(f, 2));
    }
  }

  lemma RemoveActiveSets(ports: Ports, t: Table, p: PlayerId, f: Fault)
    requires InPlay(t) && ActivePlayer(t.round.value) == Success(p) && |t.round.value.order| > 1 && t.armed.None?
    ensures SetsOneTimer(RemoveActive(ports, t, p, f))
    decreases Turns(t), 0
  {
    hide AdvanceChain, SubmissionsOk, Remaining, RollsOk, Expire, WithoutParticipant;
    var r := t.round.value;
    RemoveActiveSound(r, p);
    if !Hits(f) && !Hits(Next(f)) {
      var expired := Expire(r).value;
      AdvanceSets(ports, t.(round := Some(WithoutParticipant(expired.state, p).value)), expired.completed, Skip(f, 2));
    }
  }
}
