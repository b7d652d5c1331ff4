/** Yacht: what the server does with a turn whose deadline has passed. */
module YachtTimeout {
  import opened Wrappers
  import opened StoreFaults
  import opened YachtRound

  /**
   * What picking a category and submitting its score came to: no open category,
   * a throw before the turn was committed, a commit, or a throw after it.
   */
  datatype Scoring =
    | NoCategory
    | Refused(category: Category)
    | Confirmed(category: Category)
    | CommittedThenFailed(category: Category)

  datatype Resolution = Stale | AutoRolled(rolled: Round) | Advanced(advanced: Advance) | Broken(error: Error) | Threw

  /** What the resolver reports, and the round it leaves in the store. */
  datatype Resolved = Resolved(resolution: Resolution, stored: Option<Round>)

  datatype Deadline = Deadline(roundNumber: int, playerId: PlayerId)

  predicate IsStale(r: Round, d: Deadline) {
    r.finished || r.roundNumber != d.roundNumber || ActivePlayer(r) != Success(d.playerId)
  }

  /** Passes the expected turn if it is still the running one. */
  function WithoutScore(r: Round, d: Deadline): Resolved {
    if IsStale(r, d) then Resolved(Stale, Some(r))
    else
      var expired := Expire(r);
      if expired.Failure? then Resolved(Broken(expired.error), Some(r))
      else Resolved(Advanced(expired.value), Some(expired.value.state))
  }

  /** With rolls left the server rolls; else it scores an open category; failing that the turn passes unscored. */
  function Resolve(stored: Option<Round>, d: Deadline, rolled: seq<int>, scoring: Scoring): Resolved {
    if stored.None? || IsStale(stored.value, d) then Resolved(Stale, stored)
    else
      var r := stored.value;
      if HasRollsLeft(r) then
        var next := AutoRoll(r, rolled);
        if next.Failure? then Resolved(Broken(next.error), stored) else Resolved(AutoRolled(next.value), Some(next.value))
      else if r.dice.None? || scoring.NoCategory? || scoring.Refused? then WithoutScore(r, d)
      else
        var submitted := Submit(r, Submission(d.playerId, d.roundNumber, r.dice.value, scoring.category));
        if submitted.Failure? then WithoutScore(r, d)
        else if scoring.CommittedThenFailed? then WithoutScore(submitted.value.state, d)
        else Resolved(Advanced(submitted.value), Some(submitted.value.state))
  }

  /** The store calls a deadline makes outside the `try` around its scoring: roll, and if that is not it read, and if need be pass. */
  function Calls(stored: Option<Round>, d: Deadline, scoring: Scoring): nat {
    if stored.None? || IsStale(stored.value, d) then 2
    else if HasRollsLeft(stored.value) then 1
    else if Scores(stored.value, d, scoring) && scoring.Confirmed? then 2
    else 3
  }

  /** The submission is committed, whatever comes after. */
  predicate Scores(r: Round, d: Deadline, scoring: Scoring) {
    && r.dice.Some? && (scoring.Confirmed? || scoring.CommittedThenFailed?)
    && Submit(r, Submission(d.playerId, d.roundNumber, r.dice.value, scoring.category)).Success?
  }

  /** The same with a store that throws: the deadline ends there, with what was done until then. */
  function ResolveWith(stored: Option<Round>, d: Deadline, rolled: seq<int>, scoring: Scoring, f: Fault): Resolved {
    var out := Resolve(stored, d, rolled, scoring);
    if f.Never? || f.calls >= Calls(stored, d, scoring) then out
    else
      var left := match f.calls
        case 0 => if f.done && stored.Some? && HasRollsLeft(stored.value) then out.stored else stored
        case 1 => stored
        case _ => if f.done then out.stored else Scored(stored.value, d, scoring);
      Resolved(Threw, left)
  }

  /** What the scoring leaves, its throw caught. */
  function Scored(r: Round, d: Deadline, scoring: Scoring): Option<Round> {
    if Scores(r, d, scoring) then
      Some(Submit(r, Submission(d.playerId, d.roundNumber, r.dice.value, scoring.category)).value.state)
    else Some(r)
  }

  /** Falls with every deadline that is not stale: one for a roll, at least one for a turn. */
  function Patience(r: Round): int {
    4 * Remaining(r) - r.rollCount
  }

  /** A turn out of rolls always has dice, so it is never passed for lack of them. */
  lemma OutOfRollsHasDice(r: Round)
    requires Inv(r) && !HasRollsLeft(r)
    ensures r.dice.Some? && !r.finished
  {
  }

  /** A confirmed score is always followed by its submission. */
  lemma ConfirmedIsSubmitted(r: Round, d: Deadline, rolled: seq<int>, category: Category)
    requires Inv(r) && !HasRollsLeft(r) && !IsStale(r, d)
    ensures var s := Submission(d.playerId, d.roundNumber, r.dice.value, category);
            && Submit(r, s).Success?
            && Resolve(Some(r), d, rolled, Confirmed(category))
               == Resolved(Advanced(Submit(r, s).value), Some(Submit(r, s).value.state))
  {
    SubmitSound(r, Submission(d.playerId, d.roundNumber, r.dice.value, category));
    hide Submit, Expire;
  }

  /** A submission takes its turn with it: the deadline finds that turn over. */
  lemma SubmittedIsStale(r: Round, s: Submission)
    requires Inv(r) && Submit(r, s).Success?
    ensures IsStale(Submit(r, s).value.state, Deadline(s.roundNumber, s.playerId))
  {
    SubmitSound(r, s);
  }

  /** A failure after the commit passes no second turn: the submission stands and the deadline reports a stale one. */
  lemma FailureAfterCommitKeepsTurn(r: Round, d: Deadline, rolled: seq<int>, category: Category)
    requires Inv(r) && !HasRollsLeft(r) && !IsStale(r, d)
    ensures var s := Submission(d.playerId, d.roundNumber, r.dice.value, category);
            && Submit(r, s).Success?
            && Resolve(Some(r), d, rolled, CommittedThenFailed(category)) == Resolved(Stale, Some(Submit(r, s).value.state))
  {
    var s := Submission(d.playerId, d.roundNumber, r.dice.value, category);
    SubmitSound(r, s);
    SubmittedIsStale(r, s);
    hide Submit, Expire;
  }

  lemma ResolveRolls(r: Round, d: Deadline, rolled: seq<int>, scoring: Scoring)
    requires Inv(r) && DiceOk(rolled) && !IsStale(r, d) && HasRollsLeft(r)
    ensures var out := Resolve(Some(r), d, rolled, scoring);
            && out.resolution.AutoRolled? && out.stored == Some(out.resolution.rolled)
            && var r' := out.resolution.rolled;
            && Inv(r') && ActivePlayer(r') == ActivePlayer(r)
            && r'.rollCount == r.rollCount + 1 && Remaining(r') == Remaining(r)
  {
    AutoRollWorks(r, rolled);
    hide SubmissionsOk, AutoRoll, Remaining;
  }

  lemma ResolvePasses(r: Round, d: Deadline, rolled: seq<int>, scoring: Scoring)
    requires Inv(r) && !IsStale(r, d) && !HasRollsLeft(r)
    ensures var out := Resolve(Some(r), d, rolled, scoring);
            && out.stored.Some? && Inv(out.stored.value) && out.stored.value.rollCount == 0
            && Remaining(out.stored.value) == Remaining(r) - 1
            && (if scoring.CommittedThenFailed? then out.resolution == Stale
                else out.resolution.Advanced? && out.stored == Some(out.resolution.advanced.state))
  {
    OutOfRollsHasDice(r);
    ExpireSound(r);
    AdvanceTurnSound(r, r.submissions);
    if !scoring.NoCategory? {
      var s := Submission(d.playerId, d.roundNumber, r.dice.value, scoring.category);
      SubmitSound(r, s);
      SubmittedIsStale(r, s);
      SubmittedUnrolled(r, s);
    }
    hide SubmissionsOk, RollsOk, Submit, Expire, AdvanceTurn, Remaining;
  }

  lemma SubmittedUnrolled(r: Round, s: Submission)
    requires Inv(r) && Submit(r, s).Success?
    ensures Submit(r, s).value.state.rollCount == 0
  {
  }

  /**
   * Whatever the scoring does, a throw after the commit included: a deadline
   * whose turn is over changes nothing, any other rolls once or passes exactly
   * one turn, so the game's end comes nearer and the state stays sound.
   */
  lemma ResolveSound(r: Round, d: Deadline, rolled: seq<int>, scoring: Scoring)
    requires Inv(r) && DiceOk(rolled)
    ensures var out := Resolve(Some(r), d, rolled, scoring);
            && !out.resolution.Broken? && out.stored.Some?
            && (out.resolution.Stale? <==> IsStale(r, d) || (!HasRollsLeft(r) && scoring.CommittedThenFailed?))
            && var r' := out.stored.value;
            && Inv(r')
            && (r' == r <==> IsStale(r, d))
            && (!IsStale(r, d) ==> 0 <= Patience(r') < Patience(r))
            && (out.resolution.AutoRolled? <==> !IsStale(r, d) && HasRollsLeft(r))
            && (out.resolution.AutoRolled? ==>
                  ActivePlayer(r') == ActivePlayer(r) && r'.rollCount == r.rollCount + 1 && Remaining(r') == Remaining(r))
            && (!IsStale(r, d) && !HasRollsLeft(r) ==> Remaining(r') == Remaining(r) - 1)
  {
    RemainingPositive(r);
    if !IsStale(r, d) {
      if HasRollsLeft(r) { ResolveRolls(r, d, rolled, scoring); } else { ResolvePasses(r, d, rolled, scoring); }
      hide SubmissionsOk, Resolve, Remaining;
      RemainingPositive(Resolve(Some(r), d, rolled, scoring).stored.value);
    }
  }

  datatype Fire = Fire(rolled: seq<int>, scoring: Scoring)

  /** Deadlines of the running turn, one after the other. */
  function Fires(r: Round, fires: seq<Fire>): Round
    decreases |fires|
  {
    if fires == [] || r.finished || ActivePlayer(r).Failure? then r
    else
      var d := Deadline(r.roundNumber, ActivePlayer(r).value);
      Fires(Resolve(Some(r), d, fires[0].rolled, fires[0].scoring).stored.value, fires[1..])
  }

  /** A table nobody plays at is over after at most four deadlines a turn, even if no score is ever stored. */
  lemma {:induction false} FiresFinish(r: Round, fires: seq<Fire>)
    requires Inv(r) && forall f :: f in fires ==> DiceOk(f.rolled)
    requires |fires| >= Patience(r)
    ensures Fires(r, fires).finished
    decreases |fires|
  {
    hide Resolve, SubmissionsOk, Remaining;
    RemainingPositive(r);
    if !r.finished {
      var d := Deadline(r.roundNumber, ActivePlayer(r).value);
      assert fires[0] in fires;
      ResolveSound(r, d, fires[0].rolled, fires[0].scoring);
      FiresFinish(Resolve(Some(r), d, fires[0].rolled, fires[0].scoring).stored.value, fires[1..]);
    }
  }

  /** From the start of a game with n players: 48·n deadlines at most. */
  lemma GameFitsDeadlines(players: seq<PlayerId>, fires: seq<Fire>)
    requires Start(1, players, DEFAULT_TOTAL_ROUNDS).Success?
    requires |fires| >= 48 * |players| && forall f :: f in fires ==> DiceOk(f.rolled)
    ensures Fires(Start(1, players, DEFAULT_TOTAL_ROUNDS).value, fires).finished
  {
    var r := Start(1, players, DEFAULT_TOTAL_ROUNDS).value;
    StartInv(1, players, DEFAULT_TOTAL_ROUNDS);
    FiresFinish(r, fires);
  }

  // ---------------------------------------------------------------------------
  // The store and the resolver in place.

  datatype StoreError = Rejected(error: Error) | NotInitialized | ScoreNotConfirmed | FailedAfterCommit | StoreFailed

  /** Whether call number `k` throws, and if so whether it has done its work. */
  function FailsAt(f: Fault, k: nat): Option<bool> {
    if f.In? && f.calls == k then Some(f.done) else None
  }

  /** What a roll for the deadline leaves. */
  function Rolled(stored: Option<Round>, d: Deadline, rolled: seq<int>): Option<Round> {
    if stored.None? || IsStale(stored.value, d) || !HasRollsLeft(stored.value) then stored
    else
      var next := AutoRoll(stored.value, rolled);
      if next.Success? then Some(next.value) else stored
  }

  class RoundStore {
    var stored: Option<Round>

    constructor ()
      ensures stored == None
    {
      stored := None;
    }

    /** First write wins. */
    method Initialize(r: Round) returns (created: bool)
      modifies this
      ensures created == old(stored).None? && stored == if created then Some(r) else old(stored)
    {
      created := stored.None?;
      if created { stored := Some(r); }
    }

    /** None when the turn is over or out of rolls. */
    method AutoRollAtomically(d: Deadline, rolled: seq<int>, fails: Option<bool>) returns (next: Result<Option<Round>, StoreError>)
      modifies this
      ensures fails.Some? ==> next == Failure(StoreFailed)
      ensures fails.None? && (old(stored).None? || IsStale(old(stored).value, d) || !HasRollsLeft(old(stored).value)) ==>
                next == Success(None)
      ensures fails.None? && old(stored).Some? && !IsStale(old(stored).value, d) && HasRollsLeft(old(stored).value) ==>
                var rolledState := AutoRoll(old(stored).value, rolled);
                next == if rolledState.Success? then Success(Some(rolledState.value)) else Failure(Rejected(rolledState.error))
      ensures stored == if fails == Some(false) then old(stored) else Rolled(old(stored), d, rolled)
    {
      if fails == Some(false) { return Failure(StoreFailed); }
      if stored.None? || IsStale(stored.value, d) || !HasRollsLeft(stored.value) {
        return if fails.Some? then Failure(StoreFailed) else Success(None);
      }
      var rolledState := AutoRoll(stored.value, rolled);
      if rolledState.Success? { stored := Some(rolledState.value); }
      if fails.Some? { return Failure(StoreFailed); }
      return if rolledState.Success? then Success(stored) else Failure(Rejected(rolledState.error));
    }

    /** Passes the expected turn without a score; None when it is over. */
    method ExpireAtomically(d: Deadline, fails: Option<bool>) returns (result: Result<Option<Advance>, StoreError>)
      modifies this
      ensures fails.Some? ==> result == Failure(StoreFailed)
      ensures fails == Some(false) ==> stored == old(stored)
      ensures old(stored).None? || IsStale(old(stored).value, d) ==>
                stored == old(stored) && (fails.None? ==> result == Success(None))
      ensures old(stored).Some? && !IsStale(old(stored).value, d) && fails != Some(false) ==>
                var a := Expire(old(stored).value);
                && stored == (if a.Success? then Some(a.value.state) else old(stored))
                && (fails.None? ==> result == if a.Success? then Success(Some(a.value)) else Failure(Rejected(a.error)))
    {
      if fails == Some(false) { return Failure(StoreFailed); }
      if stored.None? || IsStale(stored.value, d) {
        return if fails.Some? then Failure(StoreFailed) else Success(None);
      }
      var a := Expire(stored.value);
      if a.Success? { stored := Some(a.value.state); }
      if fails.Some? { return Failure(StoreFailed); }
      return if a.Success? then Success(Some(a.value)) else Failure(Rejected(a.error));
    }

    /** The submission is checked, then its score confirmed, and only then the turn committed; what comes after may fail. */
    method SubmitAtomically(s: Submission, confirmed: bool, failsAfter: bool) returns (result: Result<Advance, StoreError>)
      modifies this
      ensures result ==
              if old(stored).None? then Failure(NotInitialized)
              else if Submit(old(stored).value, s).Failure? then Failure(Rejected(Submit(old(stored).value, s).error))
              else if !confirmed then Failure(ScoreNotConfirmed)
              else if failsAfter then Failure(FailedAfterCommit)
              else Success(Submit(old(stored).value, s).value)
      ensures stored == if result.Success? || result == Failure(FailedAfterCommit) then
                          Some(Submit(old(stored).value, s).value.state)
                        else old(stored)
    {
      if stored.None? { return Failure(NotInitialized); }
      var a := Submit(stored.value, s);
      if a.Failure? { return Failure(Rejected(a.error)); }
      if !confirmed { return Failure(ScoreNotConfirmed); }
      stored := Some(a.value.state);
      if failsAfter { return Failure(FailedAfterCommit); }
      return Success(a.value);
    }

    method RemoveParticipantAtomically(p: PlayerId) returns (result: Result<Option<Round>, StoreError>)
      modifies this
      ensures old(stored).None? ==> result == Success(None) && stored == None
      ensures old(stored).Some? ==>
                var r := WithoutParticipant(old(stored).value, p);
                if r.Success? then result == Success(Some(r.value)) && stored == Some(r.value)
                else result == Failure(Rejected(r.error)) && stored == old(stored)
    {
      if stored.None? { return Success(None); }
      var r := WithoutParticipant(stored.value, p);
      if r.Failure? { return Failure(Rejected(r.error)); }
      stored := Some(r.value);
      return Success(stored);
    }

    method AdvanceWithoutScore(d: Deadline, fails: Option<bool>) returns (resolution: Resolution)
      requires stored.Some?
      modifies this
      ensures fails.None? ==> Resolved(resolution, stored) == WithoutScore(old(stored).value, d)
      ensures fails.Some? ==>
                resolution == Threw && stored == if fails.value then WithoutScore(old(stored).value, d).stored else old(stored)
    {
      var expired := ExpireAtomically(d, fails);
      match expired
      case Success(None) => resolution := Stale;
      case Success(Some(a)) => resolution := Advanced(a);
      case Failure(e) => resolution := if e.Rejected? then Broken(e.error) else Threw;
    }

    /** The resolver, one store call after the other; failures of the submission are caught, no other's is. */
    method ResolveDeadline(d: Deadline, rolled: seq<int>, scoring: Scoring, f: Fault) returns (resolution: Resolution)
      modifies this
      ensures Resolved(resolution, stored) == ResolveWith(old(stored), d, rolled, scoring, f)
    {
      hide AutoRoll, Submit, Expire;
      var autoRolled := AutoRollAtomically(d, rolled, FailsAt(f, 0));
      match autoRolled {
        case Success(Some(next)) => return AutoRolled(next);
        case Failure(e) =>
          return if e.Rejected? then Broken(e.error) else Threw;
        case Success(None) =>
      }
      if FailsAt(f, 1).Some? { return Threw; }
      if stored.None? || IsStale(stored.value, d) { return Stale; }
      var dice := stored.value.dice;
      if dice.None? || scoring.NoCategory? {
        resolution := AdvanceWithoutScore(d, FailsAt(f, 2));
        return;
      }
      var s := Submission(d.playerId, d.roundNumber, dice.value, scoring.category);
      var submitted := SubmitAtomically(s, !scoring.Refused?, scoring.CommittedThenFailed?);
      if submitted.Success? { return Advanced(submitted.value); }
      resolution := AdvanceWithoutScore(d, FailsAt(f, 2));
    }
  }
}
