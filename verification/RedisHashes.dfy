/** Hash commands. A hash without fields disappears. Each is proved against the model. */
module RedisHashes {
  import opened Wrappers
  import opened Sets
  import opened RedisModel
  import opened RedisKeyspace

  /** The pairs written in order; the count is of the names that were new. */
  method WritePairs<V>(container: map<Name, V>, pairs: seq<(Name, V)>) returns (written: map<Name, V>, added: int)
    ensures written == WriteAll(container, pairs)
    ensures added == |written| - |container|
  {
    written, added := container, 0;
    for i := 0 to |pairs|
      invariant written == WriteAll(container, pairs[..i])
      invariant added == |written| - |container|
    {
      assert pairs[..i + 1][..i] == pairs[..i];
      SizeAfterInsert(written, pairs[i].0, pairs[i].1);
      if pairs[i].0 !in written { added := added + 1; }
      written := written[pairs[i].0 := pairs[i].1];
    }
    assert pairs[..|pairs|] == pairs;
  }

  /** The names deleted in order; a name listed twice counts once. */
  method DeleteNames<V>(container: map<Name, V>, names: seq<Name>) returns (left: map<Name, V>, removed: int)
    ensures left == container - Named(names)
    ensures removed == |container| - |left|
  {
    hide Named;
    left, removed := container, 0;
    NoneNamed(container);
    for i := 0 to |names|
      invariant left == container - Named(names[..i])
      invariant removed == |container| - |left|
    {
      MinusNext(container, names, i);
      if names[i] in left {
        SizeAfterRemoval(left, names[i]);
        removed := removed + 1;
      }
      left := left - {names[i]};
    }
    assert names[..|names|] == names;
  }

  method HSet(store: Keyspace, key: Name, args: HashArgs) returns (reply: Result<Reply, Error>)
    requires store.Valid()
    modifies store`data
    ensures store.Valid()
    ensures Outcome(reply, store.View()) == ExecHSet(store.Limits(), old(store.View()), key, args)
  {
    hide Live;
    var pairs := Pairs(args);
    if pairs.Failure? { return Failure(pairs.error); }
    var hash := store.HashForWrite(key);
    if hash.Failure? { return Failure(hash.error); }
    var written, added := WritePairs(hash.value, pairs.value);
    store.Replace(key, Hash(written, store.View()[key].expiresAt));
    return Success(Int(added));
  }

  method HGet(store: Keyspace, key: Name, field: Name) returns (reply: Result<Reply, Error>)
    requires store.Valid()
    modifies store`data
    ensures store.Valid() && Exec(store.Limits(), old(store.View()), Command.HGet(key, field), Outcome(reply, store.View()))
  {
    hide Live;
    var hash := store.HashOf(key);
    reply := if hash.Failure? then Failure(hash.error)
             else Success(if field in hash.value then Bulk(hash.value[field]) else Nil);
  }

  method HGetAll(store: Keyspace, key: Name) returns (reply: Result<Reply, Error>)
    requires store.Valid()
    modifies store`data
    ensures store.Valid() && Exec(store.Limits(), old(store.View()), Command.HGetAll(key), Outcome(reply, store.View()))
  {
    hide Live;
    var hash := store.HashOf(key);
    reply := if hash.Failure? then Failure(hash.error) else Success(Fields(hash.value));
  }

  method HDel(store: Keyspace, key: Name, fields: seq<Name>) returns (reply: Result<Reply, Error>)
    requires store.Valid()
    modifies store`data
    ensures store.Valid() && Outcome(reply, store.View()) == ExecHDel(old(store.View()), key, fields)
  {
    hide Live;
    var hash := store.HashOf(key);
    if hash.Failure? { return Failure(hash.error); }
    if key !in store.data { return Success(Int(0)); }
    var left, removed := DeleteNames(hash.value, fields);
    store.WriteBack(key, Hash(left, store.View()[key].expiresAt));
    return Success(Int(removed));
  }

  method HIncrBy(store: Keyspace, key: Name, field: Name, increment: Value) returns (reply: Result<Reply, Error>)
    requires store.Valid()
    modifies store`data
    ensures store.Valid()
    ensures Outcome(reply, store.View()) == ExecHIncrBy(store.Limits(), old(store.View()), key, field, increment)
  {
    hide Live;
    var step := Integer(increment);
    if step.None? { return Failure(NotInteger); }
    var hash := store.HashForWrite(key);
    if hash.Failure? { return Failure(hash.error); }
    var current := if field in hash.value then hash.value[field] else Num(0);
    if current.Text? { return Failure(HashNotInteger); }
    var next := current.n + step.value;
    store.Replace(key, Hash(hash.value[field := Num(next)], store.View()[key].expiresAt));
    return Success(Int(next));
  }
}
