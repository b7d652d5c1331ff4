/** String commands. Each is proved against the model. */
module RedisStrings {
  import opened Wrappers
  import opened RedisModel
  import opened RedisKeyspace

  method Get(store: Keyspace, key: Name) returns (reply: Result<Reply, Error>)
    requires store.Valid()
    modifies store`data
    ensures store.Valid() && store.View() == old(store.View())
    ensures reply == ExecGet(old(store.View()), key)
  {
    reply := store.StringOf(key);
  }

  method ParseSetOptions(now: int, options: seq<SetOption>) returns (plan: Result<SetPlan, Error>)
    ensures plan == Plan(now, options)
  {
    plan := Success(SetPlan(None, None));
    for i := 0 to |options|
      invariant plan == Plan(now, options[..i])
    {
      assert options[..i + 1][..i] == options[..i];
      if plan.Success? {
        plan := Apply(now, plan.value, options[i]);
      }
    }
    assert options[..|options|] == options;
  }

  method Set(store: Keyspace, key: Name, value: Value, options: seq<SetOption>) returns (reply: Result<Reply, Error>)
    requires store.Valid()
    modifies store`data
    ensures store.Valid()
    ensures Outcome(reply, store.View()) == ExecSet(store.Limits(), old(store.View()), key, value, options)
  {
    var plan := ParseSetOptions(store.clock, options);
    if plan.Failure? { return Failure(plan.error); }
    var entry := store.Lookup(key);
    if (plan.value.condition == Some(Nx) && entry.Some?) || (plan.value.condition == Some(Xx) && entry.None?) {
      return Success(Nil);
    }
    var written := Str(value, plan.value.expiresAt);
    if entry.Some? {
      store.Overwrite(key, written);
    } else {
      var refusal := store.Create(key, written);
      if refusal.Some? { return Failure(refusal.value); }
    }
    return Success(Okay);
  }

  method GetDel(store: Keyspace, key: Name) returns (reply: Result<Reply, Error>)
    requires store.Valid()
    modifies store`data
    ensures store.Valid() && Outcome(reply, store.View()) == ExecGetDel(old(store.View()), key)
  {
    reply := store.StringOf(key);
    if reply.Success? && reply.value != Nil {
      store.Discard(key);
    }
  }
}
