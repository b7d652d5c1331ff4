/** The life of one `withLock` call: how long it waits, what it does inside, and what it leaves behind. */
module RoomLockOutcomes {
  import opened Wrappers
  import opened RoomLock

  /** The call is in line, with this deadline. */
  predicate Waits<V>(s: Room<V>, c: Token, deadline: int) {
    c in s.calls && (s.calls[c] == Trying(deadline) || s.calls[c] == Refused(deadline))
  }

  /** The call is leaving or has left without ever having had the lock. */
  predicate GaveUp<V>(s: Room<V>, c: Token) {
    c in s.calls && (s.calls[c].Closing? || s.calls[c].Done?) && c !in s.acquired
  }

  /** The call looks at the clock after a refusal, and its time is up. */
  predicate TooLate<V>(s: Room<V>, l: Label<V>, c: Token, deadline: int) {
    l == CheckDeadline(c) && c in s.calls && s.calls[c] == Refused(deadline) && s.now >= deadline
  }

  predicate Takes<V>(s: Room<V>, l: Label<V>, c: Token) {
    l == TryLock(c) && c in s.calls && s.calls[c].Trying? && (s.lock.None? || s.now >= s.lock.value.expiresAt)
  }

  /**
   * A call in line takes the lock when it finds none that still runs, for the
   * whole lease from now; refused before its deadline it tries again; and there
   * is no other way out of the line but to give up at the deadline.
   */
  lemma WaiterStep<V>(f: Mutation<V>, t: Timing, s: Room<V>, l: Label<V>, c: Token, deadline: int)
    requires Waits(s, c, deadline)
    ensures var s' := Step(f, t, s, l);
            && c in s'.calls
            && (Takes(s, l, c) ==>
                  s'.calls[c] == Holding(s.now + t.ttl) && s'.lock == Some(Lease(c, s.now + t.ttl)) && s'.acquired == s.acquired + [c])
            && (TooLate(s, l, c, deadline) ==> s'.calls[c] == Closing && s'.lock == s.lock && s'.acquired == s.acquired)
            && (l == CheckDeadline(c) && s.calls[c].Refused? && s.now < deadline ==> s'.calls[c] == Trying(deadline))
            && (!Takes(s, l, c) && !TooLate(s, l, c, deadline) ==> Waits(s', c, deadline))
            && (c in s'.acquired <==> c in s.acquired || Takes(s, l, c))
  {
  }

  lemma OutStep<V(!new)>(f: Mutation<V>, t: Timing, s: Room<V>, l: Label<V>, c: Token)
    requires c in s.calls && !s.calls[c].Trying? && !s.calls[c].Refused?
    ensures GaveUp(Step(f, t, s, l), c) <==> GaveUp(s, c)
    ensures var s' := Step(f, t, s, l); c in s'.calls && !s'.calls[c].Trying? && !s'.calls[c].Refused?
    requires c in s.acquired || GaveUp(s, c)
    ensures c in Step(f, t, s, l).acquired || GaveUp(Step(f, t, s, l), c)
  {
  }

  lemma {:induction false} OutForGood<V(!new)>(f: Mutation<V>, t: Timing, s: Room<V>, labels: seq<Label<V>>, c: Token)
    requires c in s.calls && !s.calls[c].Trying? && !s.calls[c].Refused? && (c in s.acquired || GaveUp(s, c))
    ensures GaveUp(Run(f, t, s, labels), c) <==> GaveUp(s, c)
    decreases |labels|
  {
    hide Step, GaveUp;
    if labels != [] {
      OutStep(f, t, s, labels[0], c);
      OutForGood(f, t, Step(f, t, s, labels[0]), labels[1..], c);
    }
  }

  ghost predicate GivesUpAt<V>(f: Mutation<V>, t: Timing, s: Room<V>, labels: seq<Label<V>>, i: nat, c: Token, deadline: int) {
    i < |labels| && TooLate(Run(f, t, s, labels[..i]), labels[i], c, deadline)
  }

  lemma GivesUpLater<V>(f: Mutation<V>, t: Timing, s: Room<V>, labels: seq<Label<V>>, c: Token, deadline: int)
    requires labels != []
    ensures (exists i: nat :: GivesUpAt(f, t, s, labels, i, c, deadline))
            <==> TooLate(s, labels[0], c, deadline)
                 || exists i: nat :: GivesUpAt(f, t, Step(f, t, s, labels[0]), labels[1..], i, c, deadline)
  {
    hide TooLate, Step;
    var rest := labels[1..];
    var s' := Step(f, t, s, labels[0]);
    if i: nat :| GivesUpAt(f, t, s, labels, i, c, deadline) {
      if i > 0 {
        assert labels[..i][1..] == rest[..i - 1];
        assert GivesUpAt(f, t, s', rest, i - 1, c, deadline);
      }
    }
    if TooLate(s, labels[0], c, deadline) {
      assert GivesUpAt(f, t, s, labels, 0, c, deadline);
    }
    if i: nat :| GivesUpAt(f, t, s', rest, i, c, deadline) {
      assert labels[..i + 1][1..] == rest[..i];
      assert GivesUpAt(f, t, s, labels, i + 1, c, deadline);
    }
  }

  lemma {:induction false} NeverInLine<V(!new)>(
      f: Mutation<V>, t: Timing, s: Room<V>, labels: seq<Label<V>>, i: nat, c: Token, deadline: int)
    requires c in s.calls && !s.calls[c].Trying? && !s.calls[c].Refused? && (c in s.acquired || GaveUp(s, c)) && i <= |labels|
    ensures !Waits(Run(f, t, s, labels[..i]), c, deadline)
    decreases |labels|
  {
    hide Step, GaveUp;
    if i > 0 {
      OutStep(f, t, s, labels[0], c);
      assert labels[..i][1..] == labels[1..][..i - 1];
      NeverInLine(f, t, Step(f, t, s, labels[0]), labels[1..], i - 1, c, deadline);
    }
  }

  lemma {:induction false} GivesUpFromLine<V(!new)>(
      f: Mutation<V>, t: Timing, s: Room<V>, labels: seq<Label<V>>, c: Token, deadline: int)
    requires Waits(s, c, deadline) && c !in s.acquired
    ensures GaveUp(Run(f, t, s, labels), c) <==> exists i: nat :: GivesUpAt(f, t, s, labels, i, c, deadline)
    decreases |labels|
  {
    if labels != [] {
      var s' := Step(f, t, s, labels[0]);
      WaiterStep(f, t, s, labels[0], c, deadline);
      GivesUpLater(f, t, s, labels, c, deadline);
      if TooLate(s, labels[0], c, deadline) || Takes(s, labels[0], c) {
        hide Step;
        assert GaveUp(s', c) <==> TooLate(s, labels[0], c, deadline);
        OutForGood(f, t, s', labels[1..], c);
        forall i: nat | GivesUpAt(f, t, s', labels[1..], i, c, deadline) ensures false {
          NeverInLine(f, t, s', labels[1..], i, c, deadline);
        }
      } else {
        hide Step, TooLate, GaveUp;
        GivesUpFromLine(f, t, s', labels[1..], c, deadline);
      }
    }
  }

  /**
   * A call ends as busy, without the lock, if and only if it was refused and
   * found its whole waiting time since the start gone: never before, and no
   * other way. A call that is refused in time tries again.
   */
  lemma BusyIff<V(!new)>(f: Mutation<V>, t: Timing, now: int, stored: Option<V>, before: seq<Label<V>>, c: Token, after: seq<Label<V>>)
    requires c !in Run(f, t, Fresh(now, stored), before).calls
    ensures var s := Run(f, t, Fresh(now, stored), before); var inLine := Step(f, t, s, Start(c)); var deadline := s.now + t.wait;
            GaveUp(Run(f, t, Fresh(now, stored), before + [Start(c)] + after), c)
            <==> exists i: nat :: GivesUpAt(f, t, inLine, after, i, c, deadline)
  {
    var s0 := Fresh(now, stored);
    var s := Run(f, t, s0, before);
    RunKeepsLock(f, t, s0, before);
    RunAppend(f, t, s0, before + [Start(c)], after);
    RunAppend(f, t, s0, before, [Start(c)]);
    assert Run(f, t, s, [Start(c)]) == Step(f, t, s, Start(c));
    assert c !in s.acquired;
    var inLine, deadline := Step(f, t, s, Start(c)), s.now + t.wait;
    assert Waits(inLine, c, deadline) && c !in inLine.acquired;
    hide Step, GaveUp, GivesUpAt, LeaseOwned, Fair, Waits;
    GivesUpFromLine(f, t, inLine, after, c, deadline);
  }

  /** Inside, a call reads what is stored, and writes back what its mutation makes of what it read; with nothing stored it is done. */
  lemma HolderStep<V>(f: Mutation<V>, t: Timing, s: Room<V>, c: Token)
    requires InSection(s, c)
    ensures s.calls[c].Holding? ==>
              var s' := Step(f, t, s, Load(c));
              && s'.stored == s.stored && s'.lock == s.lock && c in s'.calls
              && s'.calls[c] == (if s.stored.Some? then Loaded(s.calls[c].until, s.stored.value) else Closing)
              && s'.history == (if s.stored.Some? then s.history else s.history + [Applied(c)])
    ensures s.calls[c].Loaded? ==>
              var s' := Step(f, t, s, Commit(c)); var next := f(c, s.calls[c].seen);
              && s'.stored == (if next.Some? then next else s.stored) && s'.lock == s.lock
              && c in s'.calls && s'.calls[c] == Closing && s'.history == s.history + [Applied(c)]
    ensures var s' := Step(f, t, s, Abort(c)); s' == s.(calls := s'.calls) && c in s'.calls && s'.calls[c] == Closing
  {
  }

  /** A delivered release takes away the call's own running lock and no other; one that fails leaves every lock to run out. */
  lemma CloserStep<V>(f: Mutation<V>, t: Timing, s: Room<V>, c: Token, delivered: bool)
    requires c in s.calls && s.calls[c].Closing?
    ensures var s' := Step(f, t, s, Unlock(c, delivered));
            && s' == s.(calls := s'.calls, lock := s'.lock) && c in s'.calls && s'.calls[c] == Done
            && s'.lock == if delivered && s.lock.Some? && s.lock.value.owner == c && s.now < s.lock.value.expiresAt then None else s.lock
  {
  }

  /** Who starts gets in line for the whole waiting time; a first state is written only where there is none; the clock moves nothing else. */
  lemma OutsideStep<V>(f: Mutation<V>, t: Timing, s: Room<V>, c: Token, v: V, millis: nat)
    ensures c !in s.calls ==> Step(f, t, s, Start(c)) == s.(calls := s.calls[c := Trying(s.now + t.wait)])
    ensures c in s.calls ==> Step(f, t, s, Start(c)) == s
    ensures Step(f, t, s, Initialize(v)).stored == if s.stored.Some? then s.stored else Some(v)
    ensures Step(f, t, s, Initialize(v)).history == if s.stored.Some? then s.history else s.history + [Initialized(v)]
    ensures Step(f, t, s, Remove) == s.(stored := None, history := s.history + [Removed])
    ensures Step(f, t, s, Tick(millis)) == s.(now := s.now + millis)
  {
  }
}
