/** The lock steps of the room protocol are the store's own SET NX PX and UNLOCK_IF_OWNER. */
module RedisLock {
  import opened Wrappers
  import opened RedisModel
  import opened RoomLock

  ghost predicate IsLock(data: View, key: Name) {
    key in data ==> data[key].Str? && data[key].value.Num? && data[key].value.n >= 0 && data[key].expiresAt.Some?
  }

  /** The lease the lock key spells out, run out or not. */
  function LeaseAt(data: View, key: Name): Option<Lease>
    requires IsLock(data, key)
  {
    if key in data then Some(Lease(data[key].value.n, data[key].expiresAt.value)) else None
  }

  lemma FreeIsAbsent(data: View, key: Name, now: int)
    requires IsLock(data, key)
    ensures Free(LeaseAt(data, key), now) <==> key !in Live(data, now)
  {
  }

  function Acquire(key: Name, token: Token, ttl: int): Command {
    Set(key, Num(token), [Px(Some(Num(ttl))), Nx])
  }

  lemma AcquirePlan(now: int, ttl: int)
    ensures Plan(now, [Px(Some(Num(ttl))), Nx]) == Success(SetPlan(Some(now + ttl), Some(Nx)))
  {
    var one := [Px(Some(Num(ttl)))];
    assert one[..0] == [];
    assert Plan(now, []) == Success(SetPlan(None, None));
    assert Plan(now, one) == Success(SetPlan(Some(now + ttl), None));
    assert (one + [Nx])[..1] == one;
    assert Plan(now, one + [Nx]) == Success(SetPlan(Some(now + ttl), Some(Nx)));
  }

  /**
   * SET NX PX answers OK exactly when the protocol takes the lock and the store
   * has room for one more key; the lease is then the same. Out of room, the
   * store refuses a lock that the protocol would have given, and keeps what it has.
   */
  lemma AcquireIsTryLock<V>(
      t: Timing, s: RoomLock.Room<V>, c: Token, max: nat, data: View, key: Name, o: Outcome)
    requires IsLock(data, key) && LeaseAt(data, key) == s.lock && t.ttl > 0
    requires c in s.calls && s.calls[c].Trying?
    requires Exec(RedisModel.Room(s.now, max, None), Live(data, s.now), Acquire(key, c, t.ttl), o)
    ensures var taken := StepTryLock(t, s, c).calls[c].Holding?;
            var room := |Live(data, s.now)| < max;
            && (o.reply == Success(Okay) <==> taken && room)
            && (o.reply == Failure(OutOfMemory) <==> taken && !room)
            && (o.reply == Success(Nil) <==> !taken)
            && (taken && room ==> IsLock(o.view, key) && LeaseAt(o.view, key) == StepTryLock(t, s, c).lock)
            && (!taken || !room ==> o.view == Live(data, s.now))
            && (!taken ==> StepTryLock(t, s, c).lock == LeaseAt(data, key))
  {
    AcquirePlan(s.now, t.ttl);
    hide Plan;
    FreeIsAbsent(data, key, s.now);
  }

  /** GET, and DEL when it answers the token, is the protocol's release. */
  lemma ReleaseIsUnlockIfOwner(
      r: RedisModel.Room, data: View, key: Name, token: Token, read: Outcome, deleted: Outcome)
    requires IsLock(data, key)
    requires Exec(r, Live(data, r.now), Get(key), read)
    requires Exec(r, read.view, Del([key]), deleted)
    ensures var view' := if read.reply == Success(Bulk(Num(token))) then deleted.view else read.view;
            && IsLock(view', key)
            && var left := UnlockIfOwner(LeaseAt(data, key), r.now, token);
            LeaseAt(view', key) == if Free(left, r.now) then None else left
  {
    assert Named([key]) == {key};
    FreeIsAbsent(data, key, r.now);
  }
}
