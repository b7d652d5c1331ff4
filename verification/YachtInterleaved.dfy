/**
 * Yacht: a deadline is several calls on the stored round, each atomic under the
 * room's lock, and other calls get in between. It still passes no turn but its own.
 */
module YachtInterleaved {
  import opened Wrappers
  import opened YachtRound
  import opened YachtTimeout

  /** What other calls do before the round is read, before the score is submitted, and before the turn is passed. */
  datatype Between = Between(read: seq<Move>, submit: seq<Move>, pass: seq<Move>)

  /**
   * The resolver with others' moves between its calls: it rolls at once, or goes
   * on from what it reads. With nobody in between it is `Resolve`.
   */
  function Interleaved(r: Round, d: Deadline, rolled: seq<int>, scoring: Scoring, b: Between): (out: Resolved)
    ensures b == Between([], [], []) ==> out == Resolve(Some(r), d, rolled, scoring)
  {
    if !IsStale(r, d) && HasRollsLeft(r) then
      var next := AutoRoll(r, rolled);
      if next.Failure? then Resolved(Broken(next.error), Some(r)) else Resolved(AutoRolled(next.value), Some(next.value))
    else
      var read := MovesOn(r, b.read);
      if IsStale(read, d) then Resolved(Stale, Some(read))
      else
        var later := MovesOn(read, b.submit);
        if read.dice.None? || scoring.NoCategory? || scoring.Refused? then WithoutScore(MovesOn(later, b.pass), d)
        else
          var submitted := Submit(later, Submission(d.playerId, d.roundNumber, read.dice.value, scoring.category));
          if submitted.Failure? then WithoutScore(MovesOn(later, b.pass), d)
          else if scoring.CommittedThenFailed? then WithoutScore(MovesOn(submitted.value.state, b.pass), d)
          else Resolved(Advanced(submitted.value), Some(submitted.value.state))
  }

  lemma {:induction false} MovesAppend(r: Round, a: seq<Move>, b: seq<Move>)
    ensures MovesOn(r, a + b) == MovesOn(MovesOn(r, a), b)
    decreases |a|
  {
    hide MoveOn;
    if a == [] {
      assert a + b == b;
    } else {
      assert (a + b)[1..] == a[1..] + b;
      MovesAppend(MoveOn(r, a[0]), a[1..], b);
    }
  }

  /** A deadline's turn is running or over, whatever others do. */
  predicate RunningOrOver(r: Round, d: Deadline) {
    !IsStale(r, d) || TurnOver(r, d.playerId, d.roundNumber)
  }

  lemma MoveRuns(r: Round, m: Move, d: Deadline)
    requires Inv(r) && RunningOrOver(r, d)
    ensures Inv(MoveOn(r, m)) && RunningOrOver(MoveOn(r, m), d)
  {
    if TurnOver(r, d.playerId, d.roundNumber) {
      MoveKeepsOver(r, m, d.playerId, d.roundNumber);
    } else {
      hide SubmissionsOk, RollsOk, RecordRoll, RecordHold, AutoRoll, WithoutParticipant, AdvanceTurn, TurnOver;
      match m
      case SubmitMove(s) =>
        SubmitSound(r, s);
        if Submit(r, s).Success? { AdvanceKeepsOver(r, r.submissions + [s], d.playerId, d.roundNumber); }
      case ExpireMove =>
        ExpireSound(r);
        AdvanceKeepsOver(r, r.submissions, d.playerId, d.roundNumber);
      case RemoveMove(q) =>
        WithoutParticipantInv(r, q);
        RemovalUnchanged(r, q);
      case _ => RollsKeepTurn(r, m);
    }
  }

  lemma {:induction false} MovesRun(r: Round, moves: seq<Move>, d: Deadline)
    requires Inv(r) && RunningOrOver(r, d)
    ensures Inv(MovesOn(r, moves)) && RunningOrOver(MovesOn(r, moves), d)
    decreases |moves|
  {
    hide Inv, RunningOrOver, MoveOn;
    if moves != [] {
      MoveRuns(r, moves[0], d);
      MovesRun(MoveOn(r, moves[0]), moves[1..], d);
    }
  }

  /** Passing the turn is nothing if it is over, or the expiry of this very turn. */
  lemma PassIsOneMove(r: Round, d: Deadline) returns (own: seq<Move>)
    requires Inv(r) && RunningOrOver(r, d)
    ensures var out := WithoutScore(r, d);
            && out.stored.Some? && !out.resolution.Broken? && Inv(out.stored.value)
            && own == (if IsStale(r, d) then [] else [ExpireMove]) && out.stored.value == MovesOn(r, own)
            && TurnOver(out.stored.value, d.playerId, d.roundNumber)
  {
    own := if IsStale(r, d) then [] else [ExpireMove];
    if !IsStale(r, d) {
      ExpireSound(r);
      AdvanceKeepsOver(r, r.submissions, d.playerId, d.roundNumber);
      assert MovesOn(r, [ExpireMove]) == MovesOn(MoveOn(r, ExpireMove), []);
    }
    hide Expire, TurnOver, Inv;
  }

  /**
   * A deadline with others in between: what it leaves is what the others' moves,
   * in their order, leave with at most one move of its own among them, a roll, a
   * submission or an expiry for its own turn; and unless it rolled, that turn is
   * over. So it never passes a turn that is not its own, and never one twice.
   */
  lemma InterleavedPassesOnce(r: Round, d: Deadline, rolled: seq<int>, scoring: Scoring, b: Between)
    returns (before: seq<Move>, own: seq<Move>, after: seq<Move>)
    requires Inv(r) && DiceOk(rolled) && RunningOrOver(r, d)
    ensures var out := Interleaved(r, d, rolled, scoring, b);
            && out.stored.Some? && !out.resolution.Broken? && Inv(out.stored.value)
            && out.stored.value == MovesOn(MovesOn(MovesOn(r, before), own), after)
            && before + after <= b.read + b.submit + b.pass
            && |own| <= 1
            && (own != [] ==> !IsStale(MovesOn(r, before), d))
            && (out.resolution.AutoRolled? <==> own == [AutoRollMove(rolled)])
            && (!out.resolution.AutoRolled? ==>
                  && TurnOver(out.stored.value, d.playerId, d.roundNumber)
                  && (own != [] ==> own[0].SubmitMove? || own[0].ExpireMove?))
  {
    if !IsStale(r, d) && HasRollsLeft(r) {
      before, own, after := [], [AutoRollMove(rolled)], [];
      AutoRollWorks(r, rolled);
      assert MovesOn(r, own) == MovesOn(MoveOn(r, own[0]), []);
      hide AutoRoll;
    } else {
      MovesRun(r, b.read, d);
      MovesAppend(r, b.read, b.submit);
      var read := MovesOn(r, b.read);
      if IsStale(read, d) {
        before, own, after := b.read, [], [];
      } else {
        before, own, after := FromRead(r, d, rolled, scoring, b);
      }
    }
  }

  lemma FromRead(r: Round, d: Deadline, rolled: seq<int>, scoring: Scoring, b: Between)
    returns (before: seq<Move>, own: seq<Move>, after: seq<Move>)
    requires Inv(r) && RunningOrOver(r, d) && (IsStale(r, d) || !HasRollsLeft(r))
    requires Inv(MovesOn(r, b.read)) && !IsStale(MovesOn(r, b.read), d)
    ensures var out := Interleaved(r, d, rolled, scoring, b);
            && out.stored.Some? && !out.resolution.Broken? && !out.resolution.AutoRolled? && Inv(out.stored.value)
            && out.stored.value == MovesOn(MovesOn(MovesOn(r, before), own), after)
            && before + after <= b.read + b.submit + b.pass
            && |own| <= 1 && (own != [] ==> !IsStale(MovesOn(r, before), d) && (own[0].SubmitMove? || own[0].ExpireMove?))
            && TurnOver(out.stored.value, d.playerId, d.roundNumber)
  {
    var read := MovesOn(r, b.read);
    var later := MovesOn(read, b.submit);
    MovesRun(read, b.submit, d);
    MovesAppend(r, b.read, b.submit);
    var s := Submission(d.playerId, d.roundNumber, if read.dice.Some? then read.dice.value else [],
                        if scoring.NoCategory? then Ones else scoring.category);
    var submits := read.dice.Some? && (scoring.Confirmed? || scoring.CommittedThenFailed?) && Submit(later, s).Success?;
    if submits {
      SubmitPassesTurn(later, s, d);
      before, own := b.read + b.submit, [SubmitMove(s)];
      var committed := Submit(later, s).value.state;
      hide Inv, TurnOver, Submit, Expire, MoveOn;
      if scoring.Confirmed? {
        after := [];
        assert before + after <= b.read + b.submit + b.pass;
      } else {
        after := b.pass;
        MovesRun(committed, b.pass, d);
        MovesKeepOver(committed, b.pass, d.playerId, d.roundNumber);
        var pass := PassIsOneMove(MovesOn(committed, b.pass), d);
        OverIsStale(MovesOn(committed, b.pass), d);
        assert MovesOn(MovesOn(committed, b.pass), []) == MovesOn(committed, b.pass);
      }
    } else {
      MovesRun(later, b.pass, d);
      MovesAppend(r, b.read + b.submit, b.pass);
      before, after := b.read + b.submit + b.pass, [];
      own := PassIsOneMove(MovesOn(later, b.pass), d);
      hide Inv, TurnOver, Submit, Expire, MoveOn;
    }
  }

  lemma SubmitPassesTurn(r: Round, s: Submission, d: Deadline)
    requires Inv(r) && Submit(r, s).Success? && s.playerId == d.playerId && s.roundNumber == d.roundNumber
    ensures var r' := Submit(r, s).value.state;
            && Inv(r') && TurnOver(r', d.playerId, d.roundNumber) && r' == MovesOn(r, [SubmitMove(s)])
            && !IsStale(r, d)
  {
    SubmitSound(r, s);
    AdvanceKeepsOver(r, r.submissions + [s], d.playerId, d.roundNumber);
    assert MovesOn(r, [SubmitMove(s)]) == MovesOn(MoveOn(r, SubmitMove(s)), []);
  }

  lemma OverIsStale(r: Round, d: Deadline)
    requires Inv(r) && TurnOver(r, d.playerId, d.roundNumber)
    ensures IsStale(r, d)
  {
    OverIsRefused(r, d.playerId, d.roundNumber);
  }
}
