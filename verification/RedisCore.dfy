/**
 * The command surface, atomic scripts and whole traces. A trace of the mutable
 * keyspace is explained step by step by the model on live keys alone.
 */
module RedisCore {
  import opened Wrappers
  import opened Sets
  import opened RedisModel
  import opened RedisKeyspace
  import S = RedisStrings
  import H = RedisHashes
  import Z = RedisZsets
  import K = RedisKeyCommands

  method Execute(store: Keyspace, c: Command) returns (reply: Result<Reply, Error>)
    requires store.Valid()
    modifies store`data
    ensures store.Valid()
    ensures Exec(store.Limits(), old(store.View()), c, Outcome(reply, store.View()))
  {
    hide Live, ExecSet, ExecGet, ExecGetDel, ExecHSet, ExecHDel, ExecHIncrBy, ExecZAdd, ExecZRem, ExecZRemRangeByScore,
         RangeReply, ExecPExpire, Ttl, CountIn, HashAt;
    match c
    case Get(k) => reply := S.Get(store, k);
    case Set(k, v, options) => reply := S.Set(store, k, v, options);
    case GetDel(k) => reply := S.GetDel(store, k);
    case HSet(k, args) => reply := H.HSet(store, k, args);
    case HGet(k, f) => reply := H.HGet(store, k, f);
    case HGetAll(k) => reply := H.HGetAll(store, k);
    case HDel(k, fields) => reply := H.HDel(store, k, fields);
    case HIncrBy(k, f, increment) => reply := H.HIncrBy(store, k, f, increment);
    case ZAdd(k, args) => reply := Z.ZAdd(store, k, args);
    case ZRange(k, start, stop) => reply := Z.ZRange(store, k, start, stop);
    case ZRem(k, members) => reply := Z.ZRem(store, k, members);
    case ZRemRangeByScore(k, low, high) => reply := Z.ZRemRangeByScore(store, k, low, high);
    case Exists(keys) =>
      var n := K.Exists(store, keys);
      reply := Success(Int(n));
    case Del(keys) =>
      var n := K.Del(store, keys);
      reply := Success(Int(n));
    case PExpire(k, millis) => reply := K.PExpire(store, k, millis);
    case PTtl(k) =>
      var n := K.PTtl(store, k);
      reply := Success(Int(n));
  }

  // ---------------------------------------------------------------------------
  // Scripts.

  /** There is room for every declared key that is missing. */
  predicate Admits(max: nat, view: View, creates: set<Name>) {
    creates - view.Keys == {} || |view| + |creates - view.Keys| <= max
  }

  /** The replies of commands run one after the other up to the first that throws. */
  ghost predicate Replies(r: Room, commands: seq<Command>, replies: seq<Result<Reply, Error>>, views: seq<View>) {
    && |views| == |replies| + 1 <= |commands| + 1
    && (forall i :: 0 <= i < |replies| ==> Exec(r, views[i], commands[i], Outcome(replies[i], views[i + 1])))
    && (forall i :: 0 <= i < |replies| - 1 ==> replies[i].Success?)
  }

  predicate RanThrough(commands: seq<Command>, replies: seq<Result<Reply, Error>>) {
    |replies| == |commands| || (replies != [] && replies[|replies| - 1].Failure?)
  }

  method CountMissing(store: Keyspace, creatable: seq<Name>) returns (missing: set<Name>)
    requires store.Valid()
    modifies store`data
    ensures store.Valid() && store.View() == old(store.View())
    ensures missing == Named(creatable) - store.View().Keys
  {
    missing := {};
    for i := 0 to |creatable|
      invariant store.Valid() && store.View() == old(store.View())
      invariant missing == Named(creatable[..i]) - store.View().Keys
    {
      var entry := store.Lookup(creatable[i]);
      assert creatable[..i + 1] == creatable[..i] + [creatable[i]];
      if entry.None? { missing := missing + {creatable[i]}; }
    }
    assert creatable[..|creatable|] == creatable;
  }

  /** Reclaims expired keys only if they stand in the way. */
  method MakeRoom(store: Keyspace, missing: nat) returns (room: bool)
    requires store.Valid()
    modifies store`data
    ensures store.Valid() && store.View() == old(store.View())
    ensures room == (missing == 0 || |store.View()| + missing <= store.maxKeys)
    ensures room ==> |store.data| + missing <= store.maxKeys
  {
    LiveSmaller(store.data, store.clock);
    if missing > 0 && |store.data| + missing > store.maxKeys {
      var _ := store.Sweep();
      return |store.data| + missing <= store.maxKeys;
    }
    return true;
  }

  method Admit(store: Keyspace, creatable: seq<Name>) returns (admitted: bool)
    requires store.Valid() && store.scriptCreates.None?
    modifies store
    ensures store.Valid() && store.View() == old(store.View()) && store.clock == old(store.clock)
    ensures admitted == Admits(store.maxKeys, store.View(), Named(creatable))
    ensures store.scriptCreates == if admitted then Some(Named(creatable)) else None
  {
    hide Named;
    var missing := CountMissing(store, creatable);
    assert |missing| == 0 <==> missing == {};
    admitted := MakeRoom(store, |missing|);
    if admitted {
      assert store.View().Keys <= store.data.Keys;
      ghost var budget := store.data.Keys + missing;
      SizeOfUnion(store.data.Keys, missing);
      assert |store.data| == |store.data.Keys|;
      hide Live;
      store.scriptCreates := Some(Named(creatable));
      store.budget := budget;
    }
  }

  method RunCommands(store: Keyspace, commands: seq<Command>)
    returns (replies: seq<Result<Reply, Error>>, ghost views: seq<View>)
    requires store.Valid()
    modifies store`data
    ensures store.Valid() && RanThrough(commands, replies)
    ensures Replies(store.Limits(), commands, replies, views)
    ensures views[0] == old(store.View()) && views[|replies|] == store.View()
  {
    hide Exec;
    replies, views := [], [store.View()];
    while |replies| < |commands|
      invariant store.Valid() && Replies(store.Limits(), commands, replies, views)
      invariant forall i :: 0 <= i < |replies| ==> replies[i].Success?
      invariant views[0] == old(store.View()) && views[|replies|] == store.View()
    {
      var reply := Execute(store, commands[|replies|]);
      replies, views := replies + [reply], views + [store.View()];
      if reply.Failure? { return; }
    }
  }

  /** Decides on room before anything is written; an admitted script is not stopped by the cap. */
  method RunAdmitted(store: Keyspace, creatable: seq<Name>, commands: seq<Command>)
    returns (admitted: bool, replies: seq<Result<Reply, Error>>, ghost views: seq<View>)
    requires store.Valid() && store.scriptCreates.None?
    modifies store
    ensures store.Valid() && store.scriptCreates.None? && store.clock == old(store.clock)
    ensures admitted == Admits(store.maxKeys, old(store.View()), Named(creatable))
    ensures !admitted ==> store.View() == old(store.View()) && replies == []
    ensures admitted ==>
              && RanThrough(commands, replies)
              && Replies(Room(store.clock, store.maxKeys, Some(Named(creatable))), commands, replies, views)
              && views[0] == old(store.View()) && views[|replies|] == store.View()
  {
    admitted := Admit(store, creatable);
    if !admitted { return false, [], []; }
    replies, views := RunCommands(store, commands);
    store.scriptCreates := None;
  }

  // ---------------------------------------------------------------------------
  // Traces.

  datatype Event = Advance(millis: nat) | Single(command: Command) | Script(creatable: seq<Name>, commands: seq<Command>) | Reclaim

  datatype Answered = NoReply | One(reply: Result<Reply, Error>) | Many(admitted: bool, replies: seq<Result<Reply, Error>>)

  datatype Moment = Moment(now: int, view: View)

  /** One event as the model sees it. */
  ghost predicate Explained(max: nat, m: Moment, e: Event, a: Answered, m': Moment) {
    match e
    case Advance(millis) => a == NoReply && m' == Moment(m.now + millis, Live(m.view, m.now + millis))
    case Single(c) => a.One? && m'.now == m.now && Exec(Room(m.now, max, None), m.view, c, Outcome(a.reply, m'.view))
    case Script(creatable, commands) =>
      && a.Many? && m'.now == m.now
      && a.admitted == Admits(max, m.view, Named(creatable))
      && if !a.admitted then m'.view == m.view && a.replies == []
         else exists views ::
           && Replies(Room(m.now, max, Some(Named(creatable))), commands, a.replies, views)
           && RanThrough(commands, a.replies)
           && views[0] == m.view && views[|a.replies|] == m'.view
    case Reclaim => a == NoReply && m' == m
  }

  method Perform(store: Keyspace, e: Event) returns (a: Answered)
    requires store.Valid() && store.scriptCreates.None?
    modifies store
    ensures store.Valid() && store.scriptCreates.None?
    ensures Explained(store.maxKeys, old(Moment(store.clock, store.View())), e, a, Moment(store.clock, store.View()))
  {
    hide Exec, Live, Admits, Replies;
    match e
    case Advance(millis) =>
      LiveLater(store.data, store.clock, store.clock + millis);
      store.clock := store.clock + millis;
      a := NoReply;
    case Single(c) =>
      var reply := Execute(store, c);
      a := One(reply);
    case Script(creatable, commands) =>
      var admitted, replies, views := RunAdmitted(store, creatable, commands);
      a := Many(admitted, replies);
    case Reclaim =>
      var _ := store.Sweep();
      a := NoReply;
  }

  /** Every trace of the keyspace is a trace of the model: expired entries left in the map never show. */
  method RunTrace(store: Keyspace, events: seq<Event>) returns (answers: seq<Answered>, ghost moments: seq<Moment>)
    requires store.Valid() && store.scriptCreates.None?
    modifies store
    ensures store.Valid() && |store.data| <= store.maxKeys
    ensures |answers| == |events| && |moments| == |events| + 1
    ensures moments[0] == old(Moment(store.clock, store.View()))
    ensures moments[|events|] == Moment(store.clock, store.View())
    ensures forall i :: 0 <= i < |events| ==>
              Explained(store.maxKeys, moments[i], events[i], answers[i], moments[i + 1])
  {
    hide Explained, Live;
    answers, moments := [], [Moment(store.clock, store.View())];
    while |answers| < |events|
      invariant store.Valid() && store.scriptCreates.None?
      invariant |answers| <= |events| && |moments| == |answers| + 1
      invariant moments[0] == old(Moment(store.clock, store.View()))
      invariant moments[|answers|] == Moment(store.clock, store.View())
      invariant forall i :: 0 <= i < |answers| ==>
                  Explained(store.maxKeys, moments[i], events[i], answers[i], moments[i + 1])
    {
      var a := Perform(store, events[|answers|]);
      answers, moments := answers + [a], moments + [Moment(store.clock, store.View())];
    }
  }

  /** What is live later does not depend on what was already dead earlier. */
  lemma LiveLater(data: View, now: int, later: int)
    requires now <= later
    ensures Live(data, later) == Live(Live(data, now), later)
  {
  }
}
