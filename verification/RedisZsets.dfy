/** Sorted set commands: by score, then by member. Each is proved against the model. */
module RedisZsets {
  import opened Wrappers
  import opened RedisModel
  import opened RedisKeyspace
  import H = RedisHashes

  method ScoredMembers(pairs: seq<(Option<real>, Name)>) returns (scored: Result<seq<(Name, real)>, Error>)
    ensures scored == Scored(pairs)
  {
    scored := Success([]);
    for i := 0 to |pairs|
      invariant scored == Scored(pairs[..i])
    {
      assert pairs[..i + 1][..i] == pairs[..i];
      if scored.Success? {
        scored := if pairs[i].0.None? then Failure(NotFloat)
                  else Success(scored.value + [(pairs[i].1, pairs[i].0.value)]);
      }
    }
    assert pairs[..|pairs|] == pairs;
  }

  method ZAdd(store: Keyspace, key: Name, args: ZsetArgs) returns (reply: Result<Reply, Error>)
    requires store.Valid()
    modifies store`data
    ensures store.Valid()
    ensures Outcome(reply, store.View()) == ExecZAdd(store.Limits(), old(store.View()), key, args)
  {
    hide Live;
    if args.pairs == [] || args.dangling { return Failure(WrongArguments); }
    var pairs := ScoredMembers(args.pairs);
    if pairs.Failure? { return Failure(pairs.error); }
    var zset := store.ZsetOf(key);
    if zset.Failure? { return Failure(zset.error); }
    if key !in store.data {
      var refusal := store.Create(key, Zset(map[], None));
      if refusal.Some? { return Failure(refusal.value); }
    }
    var written, added := H.WritePairs(zset.value, pairs.value);
    store.Replace(key, Zset(written, store.View()[key].expiresAt));
    return Success(Int(added));
  }

  method ZRem(store: Keyspace, key: Name, members: seq<Name>) returns (reply: Result<Reply, Error>)
    requires store.Valid()
    modifies store`data
    ensures store.Valid() && Outcome(reply, store.View()) == ExecZRem(old(store.View()), key, members)
  {
    hide Live;
    var zset := store.ZsetOf(key);
    if zset.Failure? { return Failure(zset.error); }
    if key !in store.data { return Success(Int(0)); }
    var left, removed := H.DeleteNames(zset.value, members);
    store.WriteBack(key, Zset(left, store.View()[key].expiresAt));
    return Success(Int(removed));
  }

  method DeleteRange(scores: map<Name, real>, low: Bound, high: Bound) returns (left: map<Name, real>, removed: int)
    ensures left == OutOfRange(scores, low, high)
    ensures removed == |scores| - |left|
  {
    hide Within;
    left, removed := scores, 0;
    var todo := scores.Keys;
    while todo != {}
      invariant todo <= scores.Keys && left.Keys <= scores.Keys
      invariant forall m :: m in left ==> left[m] == scores[m]
      invariant forall m :: m in scores && m in todo ==> m in left
      invariant forall m :: m in scores && m !in todo ==>
                  (m in left <==> !Within(scores[m], low, high))
      invariant removed == |scores| - |left|
      decreases |todo|
    {
      var member := AnyOf(todo);
      if Within(scores[member], low, high) {
        SizeAfterRemoval(left, member);
        left := left - {member};
        removed := removed + 1;
      }
      todo := todo - {member};
    }
  }

  method ZRemRangeByScore(store: Keyspace, key: Name, low: Bound, high: Bound) returns (reply: Result<Reply, Error>)
    requires store.Valid()
    modifies store`data
    ensures store.Valid() && Outcome(reply, store.View()) == ExecZRemRangeByScore(old(store.View()), key, low, high)
  {
    hide Live, OutOfRange;
    var zset := store.ZsetOf(key);
    if zset.Failure? { return Failure(zset.error); }
    if key !in store.data { return Success(Int(0)); }
    var left, removed := DeleteRange(zset.value, low, high);
    store.WriteBack(key, Zset(left, store.View()[key].expiresAt));
    return Success(Int(removed));
  }

  /** The member that comes first in rank order. */
  method First(scores: map<Name, real>) returns (least: Name)
    requires scores != map[]
    ensures least in scores
    ensures forall m :: m in scores && m != least ==> Precedes(scores, least, m)
  {
    var k :| k in scores;
    least := k;
    var todo := scores.Keys - {least};
    while todo != {}
      invariant least in scores && todo <= scores.Keys
      invariant forall m :: m in scores && m !in todo && m != least ==> Precedes(scores, least, m)
      decreases |todo|
    {
      var m := AnyOf(todo);
      if m != least && Precedes(scores, m, least) { least := m; }
      todo := todo - {m};
    }
  }

  method SortedMembers(scores: map<Name, real>) returns (order: seq<Name>)
    ensures InRankOrder(scores, order)
  {
    order := [];
    var rest := scores;
    while rest != map[]
      invariant rest.Keys <= scores.Keys && forall m :: m in rest ==> rest[m] == scores[m]
      invariant forall m :: m in scores ==> (m in order <==> m !in rest)
      invariant forall m :: m in order ==> m in scores
      invariant forall i, j :: 0 <= i < j < |order| ==> Precedes(scores, order[i], order[j])
      invariant forall i, m :: 0 <= i < |order| && m in rest ==> Precedes(scores, order[i], m)
      decreases rest.Keys
    {
      var least := First(rest);
      order := order + [least];
      rest := rest - {least};
    }
  }

  method ZRange(store: Keyspace, key: Name, start: Value, stop: Value) returns (reply: Result<Reply, Error>)
    requires store.Valid()
    modifies store`data
    ensures store.Valid() && store.View() == old(store.View())
    ensures RangeReply(old(store.View()), key, start, stop, reply)
  {
    hide Live;
    var zset := store.ZsetOf(key);
    if zset.Failure? { return Failure(zset.error); }
    var order := SortedMembers(zset.value);
    if start.Text? || stop.Text? { return Failure(NotInteger); }
    reply := Success(Members(Slice(order, start.n, stop.n)));
  }
}
