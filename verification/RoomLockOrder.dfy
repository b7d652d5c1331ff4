/**
 * The order in which calls take effect: exactly when it is the order in which
 * they took the lock, and so when a schedule is serial in that order.
 */
module RoomLockOrder {
  import opened Wrappers
  import opened RoomLock

  /** Nobody who took the lock after `c` is among `done`. */
  predicate NoneLater(acquired: seq<Token>, done: set<Token>, c: Token) {
    forall i, j :: 0 <= i < j < |acquired| && acquired[i] == c ==> acquired[j] !in done
  }

  function Finishers<V>(s: Room<V>): set<Token> {
    Members(Appliers(s.history))
  }

  /** What a fencing token would check: nobody who took the lock later has taken effect already. */
  predicate Fenced<V>(s: Room<V>, l: Label<V>) {
    TakesEffect(s, l) ==> NoneLater(s.acquired, Finishers(s), l.call)
  }

  /** The calls that took effect, listed as they took the lock, are listed as they took effect. */
  predicate Ordered<V>(s: Room<V>) {
    Appliers(s.history) == Finished(s.acquired, Finishers(s))
  }

  /** Who is in the section or has taken effect took the lock, once; and nobody is both. */
  ghost predicate Queued<V(!new)>(s: Room<V>) {
    && Fair(s)
    && (forall c: Token :: InSection(s, c) ==> c in s.acquired)
    && (forall c: Token :: c in Finishers(s) ==> c in s.acquired && !InSection(s, c))
  }

  // ---------------------------------------------------------------------------
  // One step.

  /** The one call more comes last in acquisition order exactly when no finished one took the lock after it. */
  lemma {:induction false} FinishedAppendsIff(acquired: seq<Token>, done: set<Token>, c: Token)
    requires forall i, j :: 0 <= i < j < |acquired| ==> acquired[i] != acquired[j]
    requires c in acquired && c !in done
    ensures Finished(acquired, done + {c}) == Finished(acquired, done) + [c] <==> NoneLater(acquired, done, c)
  {
    var rest, last := acquired[..|acquired| - 1], acquired[|acquired| - 1];
    if last == c {
      FinishedIgnores(rest, done, c);
    } else if last in done {
      var i :| 0 <= i < |acquired| && acquired[i] == c;
      assert !NoneLater(acquired, done, c);
      assert Finished(acquired, done + {c})[|Finished(acquired, done + {c})| - 1] == last;
    } else {
      FinishedAppendsIff(rest, done, c);
      assert NoneLater(acquired, done, c) <==> NoneLater(rest, done, c);
    }
  }

  lemma MembersSnoc(calls: seq<Token>, c: Token)
    ensures Members(calls + [c]) == Members(calls) + {c}
  {
  }

  /** An effect keeps the two orders the same if and only if it is fenced. */
  lemma EffectOrderedIff<V(!new)>(s: Room<V>, l: Label<V>, s': Room<V>)
    requires Queued(s) && Ordered(s) && TakesEffect(s, l) && Moves(s, l, s', Some(Applied(l.call)), None)
    ensures Ordered(s') <==> Fenced(s, l)
  {
    AppliersSnoc(s.history, Applied(l.call));
    MembersSnoc(Appliers(s.history), l.call);
    FinishedAppendsIff(s.acquired, Finishers(s), l.call);
    hide Finished, Appliers, Members, NoneLater;
  }

  lemma StepOrderedIff<V(!new)>(f: Mutation<V>, t: Timing, s: Room<V>, l: Label<V>)
    requires Queued(s) && Ordered(s)
    ensures Ordered(Step(f, t, s, l)) <==> Fenced(s, l)
  {
    var s' := Step(f, t, s, l);
    var e, entered := StepMoves(f, t, s, l);
    hide Step, Finished, Appliers, TakesEffect, NoneLater;
    if TakesEffect(s, l) {
      EffectOrderedIff(s, l, s');
    } else if e.Some? {
      AppliersSnoc(s.history, e.value);
    } else if entered.Some? {
      assert (s.acquired + [entered.value])[..|s.acquired|] == s.acquired;
      FinishedSnoc(s.acquired, Finishers(s), entered.value);
    }
  }

  lemma FinishedSnoc(acquired: seq<Token>, done: set<Token>, c: Token)
    requires c !in done
    ensures Finished(acquired + [c], done) == Finished(acquired, done)
  {
    assert (acquired + [c])[..|acquired|] == acquired;
  }

  lemma StepKeepsQueued<V(!new)>(f: Mutation<V>, t: Timing, s: Room<V>, l: Label<V>)
    requires Queued(s)
    ensures Queued(Step(f, t, s, l))
  {
    hide Step, Appliers, TakesEffect;
    StepKeepsQueue(f, t, s, l);
    var s' := Step(f, t, s, l);
    var e, entered := StepMoves(f, t, s, l);
    if e.Some? {
      AppliersSnoc(s.history, e.value);
      if e.value.Applied? { MembersSnoc(Appliers(s.history), e.value.call); }
    }
    hide Members;
  }

  // ---------------------------------------------------------------------------
  // Whole schedules.

  ghost predicate FencedRun<V>(f: Mutation<V>, t: Timing, s: Room<V>, labels: seq<Label<V>>) {
    forall n :: 0 <= n < |labels| ==> Fenced(Prefix(f, t, s, labels, n), labels[n])
  }

  ghost predicate OrderedThroughout<V>(f: Mutation<V>, t: Timing, s: Room<V>, labels: seq<Label<V>>) {
    forall n :: 0 <= n <= |labels| ==> Ordered(Prefix(f, t, s, labels, n))
  }

  lemma {:induction false} PrefixQueued<V(!new)>(
      f: Mutation<V>, t: Timing, now: int, initial: Option<V>, labels: seq<Label<V>>, n: nat)
    requires n <= |labels|
    ensures Queued(Prefix(f, t, Fresh(now, initial), labels, n))
  {
    if n > 0 {
      PrefixQueued(f, t, now, initial, labels, n - 1);
      PrefixStep(f, t, Fresh(now, initial), labels, n - 1);
      hide Queued, Step, Prefix;
      StepKeepsQueued(f, t, Prefix(f, t, Fresh(now, initial), labels, n - 1), labels[n - 1]);
    }
  }

  lemma {:induction false} FencedIsOrdered<V(!new)>(
      f: Mutation<V>, t: Timing, now: int, initial: Option<V>, labels: seq<Label<V>>, n: nat)
    requires n <= |labels| && FencedRun(f, t, Fresh(now, initial), labels)
    ensures Ordered(Prefix(f, t, Fresh(now, initial), labels, n))
  {
    if n > 0 {
      var s := Prefix(f, t, Fresh(now, initial), labels, n - 1);
      FencedIsOrdered(f, t, now, initial, labels, n - 1);
      PrefixQueued(f, t, now, initial, labels, n - 1);
      PrefixStep(f, t, Fresh(now, initial), labels, n - 1);
      hide Queued, Ordered, Fenced, Step, Prefix;
      StepOrderedIff(f, t, s, labels[n - 1]);
    }
  }

  /** Calls take effect in the order they took the lock, at every moment, if and only if every effect is fenced. */
  lemma OrderedIffFenced<V(!new)>(f: Mutation<V>, t: Timing, now: int, initial: Option<V>, labels: seq<Label<V>>)
    ensures OrderedThroughout(f, t, Fresh(now, initial), labels) <==> FencedRun(f, t, Fresh(now, initial), labels)
  {
    var s := Fresh(now, initial);
    hide Queued, Ordered, Fenced, Step, Prefix;
    if FencedRun(f, t, s, labels) {
      forall n | 0 <= n <= |labels|
        ensures Ordered(Prefix(f, t, s, labels, n))
      {
        FencedIsOrdered(f, t, now, initial, labels, n);
      }
    }
    if OrderedThroughout(f, t, s, labels) {
      forall n | 0 <= n < |labels|
        ensures Fenced(Prefix(f, t, s, labels, n), labels[n])
      {
        assert Ordered(Prefix(f, t, s, labels, n)) && Ordered(Prefix(f, t, s, labels, n + 1));
        PrefixQueued(f, t, now, initial, labels, n);
        PrefixStep(f, t, s, labels, n);
        StepOrderedIff(f, t, Prefix(f, t, s, labels, n), labels[n]);
      }
    }
  }

  /** At every moment the store holds what the finished calls leave one by one, in the order they took the lock. */
  ghost predicate SerialByAcquisition<V(!new)>(
      f: Mutation<V>, t: Timing, initial: Option<V>, s: Room<V>, labels: seq<Label<V>>) {
    SerialThroughout(f, t, initial, s, labels) && OrderedThroughout(f, t, s, labels)
  }

  /**
   * A schedule is serial in acquisition order for every mutation exactly when,
   * for every mutation, each write finds the state it read and each effect finds
   * nobody ahead who took the lock later: a compare-and-set and a fencing token.
   */
  lemma SerialByAcquisitionIff<V(!new)>(t: Timing, now: int, initial: Option<V>, labels: seq<Label<V>>)
    ensures (forall f: Mutation<V> :: SerialByAcquisition(f, t, initial, Fresh(now, initial), labels))
            <==> (forall f: Mutation<V> ::
                    UpToDateRun(f, t, Fresh(now, initial), labels) && FencedRun(f, t, Fresh(now, initial), labels))
  {
    var s := Fresh(now, initial);
    hide SerialThroughout, OrderedThroughout, UpToDateRun, FencedRun;
    ScheduleIsSerialIff(t, now, initial, labels);
    forall f: Mutation<V>
      ensures OrderedThroughout(f, t, s, labels) <==> FencedRun(f, t, s, labels)
    {
      OrderedIffFenced(f, t, now, initial, labels);
    }
    if forall f: Mutation<V> :: SerialByAcquisition(f, t, initial, s, labels) {
      forall f: Mutation<V>
        ensures SerialThroughout(f, t, initial, s, labels) && OrderedThroughout(f, t, s, labels)
      {
        assert SerialByAcquisition(f, t, initial, s, labels);
      }
    }
  }

  const LATE: seq<Label<int>> := [Start(1), TryLock(1), Tick(5000), Start(2), TryLock(2)]

  lemma LateHolders()
    ensures Run(INCREMENT, OVERRUN, Fresh(0, Some(0)), LATE)
            == Room(5000, Some(Lease(2, 10000)), Some(0), map[1 := Holding(5000), 2 := Holding(10000)], [1, 2], [])
  {
  }

  lemma LateCallsCommit()
    ensures
      var s := Room(5000, Some(Lease(2, 10000)), Some(0), map[1 := Holding(5000), 2 := Holding(10000)], [1, 2], []);
      var s' := Run(INCREMENT, OVERRUN, s, [Load(2), Commit(2), Load(1), Commit(1)]);
      s'.stored == Some(2) && s'.acquired == [1, 2] && s'.history == [Applied(2), Applied(1)]
  {
  }

  /** The two checks are two: a call that reads after its lease loses no update and still comes out of order. */
  lemma LateCallIsOutOfOrder()
    ensures var s := Run(INCREMENT, OVERRUN, Fresh(0, Some(0)), LATE + [Load(2), Commit(2), Load(1), Commit(1)]);
            s.stored == Some(2) && Appliers(s.history) == [2, 1] && !Ordered(s)
  {
    hide Run, Step, Fresh, Appliers, Finished;
    LateHolders();
    LateCallsCommit();
    RunAppend(INCREMENT, OVERRUN, Fresh(0, Some(0)), LATE, [Load(2), Commit(2), Load(1), Commit(1)]);
    NoAppliers<int>();
    AppliersSnoc([], Event<int>.Applied(2));
    AppliersSnoc([Event<int>.Applied(2)], Applied(1));
    assert [] + [Event<int>.Applied(2)] == [Applied(2)] && [Event<int>.Applied(2)] + [Applied(1)] == [Applied(2), Applied(1)];
    BothFinished();
  }

  lemma NoAppliers<V>()
    ensures Appliers<V>([]) == []
  {
  }

  lemma BothFinished()
    ensures Finished([1, 2], Members([2, 1])) == [1, 2]
  {
    var done := Members([2, 1]);
    assert 1 in [2, 1] && 2 in [2, 1];
    assert [1, 2][..1] == [1] && [1][..0] == [];
    assert Finished([1], done) == [1];
  }
}
