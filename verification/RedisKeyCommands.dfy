/** Commands on keys whatever their type. Each is proved against the model. */
module RedisKeyCommands {
  import opened Wrappers
  import opened RedisModel
  import opened RedisKeyspace

  method Exists(store: Keyspace, keys: seq<Name>) returns (count: int)
    requires store.Valid()
    modifies store`data
    ensures store.Valid() && store.View() == old(store.View())
    ensures count == CountIn(old(store.View()), keys)
  {
    count := 0;
    for i := 0 to |keys|
      invariant store.Valid() && store.View() == old(store.View())
      invariant count == CountIn(store.View(), keys[..i])
    {
      assert keys[..i + 1][..i] == keys[..i];
      var entry := store.Lookup(keys[i]);
      if entry.Some? { count := count + 1; }
    }
    assert keys[..|keys|] == keys;
  }

  method Del(store: Keyspace, keys: seq<Name>) returns (removed: int)
    requires store.Valid()
    modifies store`data
    ensures store.Valid() && store.View() == old(store.View()) - Named(keys)
    ensures removed == |old(store.View())| - |store.View()|
  {
    hide Named, Live;
    removed := 0;
    NoneNamed(store.View());
    ghost var before := store.View();
    for i := 0 to |keys|
      invariant store.Valid() && store.View() == before - Named(keys[..i])
      invariant removed == |before| - |store.View()|
    {
      MinusNext(before, keys, i);
      var entry := store.Lookup(keys[i]);
      if entry.Some? {
        SizeAfterRemoval(store.View(), keys[i]);
        store.Discard(keys[i]);
        removed := removed + 1;
      }
    }
    assert keys[..|keys|] == keys;
  }

  method PExpire(store: Keyspace, key: Name, millis: Value) returns (reply: Result<Reply, Error>)
    requires store.Valid()
    modifies store`data
    ensures store.Valid()
    ensures Outcome(reply, store.View()) == ExecPExpire(store.Limits(), old(store.View()), key, millis)
  {
    var entry := store.Lookup(key);
    if entry.None? { return Success(Int(0)); }
    var ms := Integer(millis);
    if ms.None? { return Failure(NotInteger); }
    if ms.value <= 0 {
      store.Discard(key);
    } else {
      store.Overwrite(key, entry.value.(expiresAt := Some(store.clock + ms.value)));
    }
    return Success(Int(1));
  }

  method PTtl(store: Keyspace, key: Name) returns (ttl: int)
    requires store.Valid()
    modifies store`data
    ensures store.Valid() && store.View() == old(store.View())
    ensures ttl == Ttl(old(store.View()), key, store.clock)
  {
    var entry := store.Lookup(key);
    ttl := if entry.None? then -2
           else if entry.value.expiresAt.None? then -1
           else entry.value.expiresAt.value - store.clock;
  }
}
