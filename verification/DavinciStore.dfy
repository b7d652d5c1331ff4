/** Da Vinci Code: the stored state under concurrent inputs and timeouts. */
module DavinciStore {
  import opened Wrappers
  import opened DavinciState
  import opened DavinciRules
  import opened DavinciInvariant
  import opened DavinciTransitions
  import Runs = DavinciRuns
  import Deal = DavinciDeal
  import Outcomes = DavinciOutcomes
  import Lock = RoomLock

  /** What one call asks of the store; a deadline carries the version it was set for. */
  datatype Request = Play(input: TimedInput) | Deadline(expected: int, now: int)

  type Requests = Lock.Token -> Request

  function InputOf(r: Request): TimedInput {
    match r
    case Play(i) => i
    case Deadline(_, now) => TimedInput(ExpireInput, now)
  }

  predicate Due(s: State, r: Request) {
    r.Deadline? ==> s.version == r.expected && s.phase != Finished
  }

  /** The store drops a result whose version did not rise. */
  function Mutate(requests: Requests): Lock.Mutation<State> {
    (call: Lock.Token, s: State) =>
      if !Due(s, requests(call)) then None
      else
        var next := Step(s, InputOf(requests(call)));
        if next.version <= s.version then None else Some(next)
  }

  ghost predicate OnlyCalls(history: seq<Lock.Event<State>>) {
    forall e | e in history :: e.Applied?
  }

  ghost predicate NoRemove(labels: seq<Lock.Label<State>>) {
    forall l | l in labels :: !l.Remove?
  }

  /** The inputs that changed the state, in the order they did. */
  ghost function Accepted(requests: Requests, s: State, history: seq<Lock.Event<State>>): seq<TimedInput>
    requires OnlyCalls(history)
  {
    if history == [] then []
    else
      var before := Accepted(requests, s, history[..|history| - 1]);
      var last := requests(history[|history| - 1].call);
      var at := Run(s, before);
      if Mutate(requests)(history[|history| - 1].call, at).Some? then before + [InputOf(last)] else before
  }

  lemma {:induction false} RunSnoc(s: State, inputs: seq<TimedInput>, i: TimedInput)
    ensures Run(s, inputs + [i]) == Step(Run(s, inputs), i)
    decreases |inputs|
  {
    hide Step;
    if inputs == [] {
      assert ([] + [i])[1..] == [];
    } else {
      assert (inputs + [i])[1..] == inputs[1..] + [i];
      RunSnoc(Step(s, inputs[0]), inputs[1..], i);
    }
  }

  /** The calls one by one are a run of the rules. */
  lemma {:induction false} SerialIsRun(requests: Requests, s: State, history: seq<Lock.Event<State>>)
    requires OnlyCalls(history)
    ensures Lock.Serial(Mutate(requests), Some(s), history) == Some(Run(s, Accepted(requests, s, history)))
    decreases |history|
  {
    hide Step, Due;
    if history != [] {
      var before := history[..|history| - 1];
      SerialIsRun(requests, s, before);
      RunSnoc(s, Accepted(requests, s, before), InputOf(requests(history[|history| - 1].call)));
    }
  }

  /** Every accepted input, and no other, raised the version by one. */
  lemma {:induction false} AcceptedCounted(
      order: seq<int>, requests: Requests, s: State, history: seq<Lock.Event<State>>)
    requires OnlyCalls(history) && Inv(order, s)
    ensures Run(s, Accepted(requests, s, history)).version == s.version + |Accepted(requests, s, history)|
    decreases |history|
  {
    hide Step, Due, Inv;
    if history != [] {
      var before := Accepted(requests, s, history[..|history| - 1]);
      var i := InputOf(requests(history[|history| - 1].call));
      AcceptedCounted(order, requests, s, history[..|history| - 1]);
      RunSnoc(s, before, i);
      Runs.RunSound(order, s, before);
      Runs.StepSound(order, Run(s, before), i);
    }
  }

  lemma {:induction false} OnlyCallsRun(
      f: Lock.Mutation<State>, t: Lock.Timing, r: Lock.Room<State>, labels: seq<Lock.Label<State>>)
    requires OnlyCalls(r.history) && r.stored.Some? && NoRemove(labels)
    ensures OnlyCalls(Lock.Run(f, t, r, labels).history)
    decreases |labels|
  {
    if labels != [] {
      assert labels[0] in labels;
      OnlyCallsRun(f, t, Lock.Step(f, t, r, labels[0]), labels[1..]);
    }
  }

  /**
   * Whatever calls and deadlines race for the room, if their critical sections
   * fit their leases the stored state is one the rules reach from the deal by
   * the accepted inputs alone, one version per accepted input, at most 87.
   */
  lemma StoredStateIsReachable(
      players: seq<PlayerId>, order: seq<int>, now: int, requests: Requests, t: Lock.Timing,
      labels: seq<Lock.Label<State>>)
    requires Initial(players, order, now).Success? && NoRemove(labels)
    requires var r := Lock.Fresh(now, Some(Initial(players, order, now).value));
             Lock.TimelyRun(Mutate(requests), t, r, labels)
    ensures
      var s := Initial(players, order, now).value;
      var r := Lock.Run(Mutate(requests), t, Lock.Fresh(now, Some(s)), labels);
      && OnlyCalls(r.history)
      && var accepted := Accepted(requests, s, r.history);
      && r.stored == Some(Run(s, accepted))
      && Inv(order, r.stored.value)
      && r.stored.value.version == 1 + |accepted| <= 88
  {
    var s := Initial(players, order, now).value;
    var r := Lock.Fresh(now, Some(s));
    hide Initial, Inv, Lock.TimelyRun, Run, Lock.Run, Lock.Serial, Accepted;
    Deal.InitialSound(players, order, now);
    OnlyCallsRun(Mutate(requests), t, r, labels);
    Lock.TimelyRunIsSerial(Mutate(requests), t, now, Some(s), labels);
    var history := Lock.Run(Mutate(requests), t, r, labels).history;
    SerialIsRun(requests, s, history);
    AcceptedCounted(order, requests, s, history);
    Deal.ReachableSound(players, order, now, Accepted(requests, s, history));
    Deal.VersionBounded(players, order, now, Accepted(requests, s, history));
  }

  // ---------------------------------------------------------------- deadlines that come late

  /** What a call does to the state it finds: an input what the rules say, a deadline only to the version it was set for. */
  lemma MutateTells(order: seq<int>, requests: Requests, call: Lock.Token, s: State)
    requires Inv(order, s)
    ensures s.turnPlayerId in s.hands
    ensures var next := Mutate(requests)(call, s); var r := requests(call);
            match r
            case Deadline(expected, now) =>
              && (next.Some? <==> s.version == expected && s.phase != Finished)
              && (next.Some? ==> Outcomes.ExpireRule(s, now, next.value))
            case Play(i) =>
              && (next.None? <==> Step(s, i) == s)
              && (next.Some? ==> next.value == Step(s, i) && Outcomes.Rules(s, i, next.value))
  {
    hide Inv, Step, Expire, Outcomes.ExpireRule, Outcomes.Rules;
    var i := InputOf(requests(call));
    Runs.StepSound(order, s, i);
    Outcomes.StepFollowsRules(order, s, i);
    if requests(call).Deadline? {
      ExpireIsStep(order, s, requests(call).now);
    }
  }

  lemma ExpireIsStep(order: seq<int>, s: State, now: int)
    requires Inv(order, s)
    ensures s.turnPlayerId in s.hands
    ensures var s' := Step(s, TimedInput(ExpireInput, now));
            && (s.phase != Finished ==> s'.version == s.version + 1) && Outcomes.ExpireRule(s, now, s')
  {
    hide Inv, Expire;
    Outcomes.ExpireFollows(order, s, now);
    hide Outcomes.TurnEnds, Outcomes.JokerPlaced;
  }

  /** The state the call at this place of the history finds. */
  ghost function FoundAt(requests: Requests, s: State, history: seq<Lock.Event<State>>, i: nat): State
    requires OnlyCalls(history) && i <= |history|
  {
    Run(s, Accepted(requests, s, history[..i]))
  }

  /** The call at this place changes the state. */
  ghost predicate TakesEffect(requests: Requests, s: State, history: seq<Lock.Event<State>>, i: nat)
    requires OnlyCalls(history) && i < |history|
  {
    Mutate(requests)(history[i].call, FoundAt(requests, s, history, i)).Some?
  }

  lemma {:induction false} AcceptedGrows(requests: Requests, s: State, history: seq<Lock.Event<State>>, i: nat, j: nat)
    requires OnlyCalls(history) && i < j <= |history| && TakesEffect(requests, s, history, i)
    ensures |Accepted(requests, s, history[..i])| < |Accepted(requests, s, history[..j])|
    decreases j
  {
    hide Mutate, Run;
    assert history[..j][..j - 1] == history[..j - 1];
    if i < j - 1 { AcceptedGrows(requests, s, history, i, j - 1); }
  }

  lemma VersionGrows(order: seq<int>, requests: Requests, s: State, history: seq<Lock.Event<State>>, i: nat, j: nat)
    requires OnlyCalls(history) && Inv(order, s) && i < j <= |history| && TakesEffect(requests, s, history, i)
    ensures FoundAt(requests, s, history, i).version < FoundAt(requests, s, history, j).version
  {
    hide Run, Accepted, Inv, Mutate;
    AcceptedGrows(requests, s, history, i, j);
    AcceptedCounted(order, requests, s, history[..i]);
    AcceptedCounted(order, requests, s, history[..j]);
  }

  lemma NotDue(requests: Requests, call: Lock.Token, s: State)
    requires requests(call).Deadline? && s.version != requests(call).expected
    ensures Mutate(requests)(call, s).None?
  {
    hide Step;
  }

  /**
   * Deadlines may fire late, twice, or after somebody moved: once the state a
   * deadline was set for has been changed, by itself or by any input, no deadline
   * set for that version or an earlier one changes anything again.
   */
  lemma LateDeadlineIsVoid(order: seq<int>, requests: Requests, s: State, history: seq<Lock.Event<State>>, i: nat, j: nat)
    requires OnlyCalls(history) && Inv(order, s) && i < j < |history| && TakesEffect(requests, s, history, i)
    requires requests(history[j].call).Deadline?
    requires requests(history[j].call).expected <= FoundAt(requests, s, history, i).version
    ensures !TakesEffect(requests, s, history, j)
  {
    hide Inv, FoundAt, Mutate;
    VersionGrows(order, requests, s, history, i, j);
    NotDue(requests, history[j].call, FoundAt(requests, s, history, j));
  }
}
