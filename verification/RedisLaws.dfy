/** What the store promises over all commands: determinism, framing, no empty container, scripts that run through. */
module RedisLaws {
  import opened Wrappers
  import opened Sets
  import opened RedisModel
  import opened RedisKeyspace
  import opened RedisCore

  // ---------------------------------------------------------------------------
  // The live view decides everything.

  lemma {:induction false} RankOrderUnique(scores: map<Name, real>, a: seq<Name>, b: seq<Name>)
    requires InRankOrder(scores, a) && InRankOrder(scores, b)
    ensures a == b
    decreases |a|
  {
    EmptyOrder(scores, a);
    EmptyOrder(scores, b);
    if a != [] && b != [] {
      FirstPrecedes(scores, a);
      FirstPrecedes(scores, b);
      assert a[0] in scores && b[0] in scores;
      RankTail(scores, a);
      RankTail(scores, b);
      RankOrderUnique(scores - {a[0]}, a[1..], b[1..]);
    }
  }

  lemma EmptyOrder(scores: map<Name, real>, a: seq<Name>)
    requires InRankOrder(scores, a)
    ensures a == [] <==> scores.Keys == {}
  {
    if a != [] {
      assert a[0] in scores;
    }
  }

  lemma FirstPrecedes(scores: map<Name, real>, a: seq<Name>)
    requires InRankOrder(scores, a) && a != []
    ensures forall m :: m in scores && m != a[0] ==> a[0] in scores && Precedes(scores, a[0], m)
  {
    forall m | m in scores && m != a[0]
      ensures a[0] in scores && Precedes(scores, a[0], m)
    {
      assert m in a && a[0] in a;
      var i :| 0 <= i < |a| && a[i] == m;
    }
  }

  lemma RankTail(scores: map<Name, real>, a: seq<Name>)
    requires InRankOrder(scores, a) && a != []
    ensures InRankOrder(scores - {a[0]}, a[1..])
  {
    var rest := scores - {a[0]};
    forall m | m in a[1..]
      ensures m in rest
    {
      var i :| 1 <= i < |a| && a[i] == m;
      assert Precedes(scores, a[0], a[i]);
    }
    forall m | m in rest
      ensures m in a[1..]
    {
      assert m in a;
    }
  }

  /** The reply, the decision that there is no room and the new live keys depend on the old live keys only. */
  lemma LiveKeysDecide(r: Room, view: View, c: Command, o: Outcome, o': Outcome)
    requires Exec(r, view, c, o) && Exec(r, view, c, o')
    ensures o == o'
  {
    if c.ZRange? && ZsetAt(view, c.key).Success? && c.start.Num? && c.stop.Num? {
      var scores := ZsetAt(view, c.key).value;
      hide ZsetAt;
      var a :| InRankOrder(scores, a) && o.reply == Success(Members(Slice(a, c.start.n, c.stop.n)));
      var b :| InRankOrder(scores, b) && o'.reply == Success(Members(Slice(b, c.start.n, c.stop.n)));
      RankOrderUnique(scores, a, b);
    }
  }

  // ---------------------------------------------------------------------------
  // One key at a time.

  function Touched(c: Command): set<Name> {
    match c
    case Exists(_) => {}
    case Del(keys) => Named(keys)
    case _ => {c.key}
  }

  /** Only the key may differ: as it was, gone, or holding a new entry. */
  ghost predicate Local(view: View, view': View, k: Name) {
    || view' == view
    || view' == view - {k}
    || (k in view' && view' == view[k := view'[k]])
  }

  /** A new key had room; in a script the cap is no error, and an undeclared key one only if it is made. */
  ghost predicate Tame(r: Room, view: View, k: Name, o: Outcome) {
    && Local(view, o.view, k)
    && (k in o.view && k !in view ==> Refusal(r, view, k).None?)
    && (r.creates.Some? ==> o.reply != Failure(OutOfMemory))
    && (forall x :: o.reply == Failure(Undeclared(x)) ==> x == k && Refusal(r, view, k) == Some(Undeclared(k)))
  }

  /** An entry the command wrote is not an empty container. */
  ghost predicate Full(view: View, k: Name, o: Outcome) {
    k in o.view && Empty(o.view[k]) ==> k in view && Empty(view[k])
  }

  lemma SetTame(r: Room, view: View, k: Name, v: Value, options: seq<SetOption>)
    ensures Tame(r, view, k, ExecSet(r, view, k, v, options)) && Full(view, k, ExecSet(r, view, k, v, options))
  {
    PlanErrors(r.now, options);
    hide Plan;
  }

  lemma HSetTame(r: Room, view: View, k: Name, args: HashArgs)
    ensures Tame(r, view, k, ExecHSet(r, view, k, args))
    ensures Full(view, k, ExecHSet(r, view, k, args)) <==> !MakesEmpty(r, view, Command.HSet(k, args))
  {
    WriteAllEmpty(if HashAt(view, k).Success? then HashAt(view, k).value else map[], args.pairs);
    hide WriteAll;
  }

  lemma HIncrByTame(r: Room, view: View, k: Name, f: Name, increment: Value)
    ensures Tame(r, view, k, ExecHIncrBy(r, view, k, f, increment))
    ensures Full(view, k, ExecHIncrBy(r, view, k, f, increment))
  {
    HIncrByFull(r, view, k, f, increment);
    hide Full, Empty, ExpiryAt;
  }

  lemma HIncrByFull(r: Room, view: View, k: Name, f: Name, increment: Value)
    ensures Full(view, k, ExecHIncrBy(r, view, k, f, increment))
  {
    hide Refusal, ExpiryAt;
    var o := ExecHIncrBy(r, view, k, f, increment);
    if o.reply.Success? {
      assert f in o.view[k].fields;
    }
  }

  lemma ZAddTame(r: Room, view: View, k: Name, args: ZsetArgs)
    ensures Tame(r, view, k, ExecZAdd(r, view, k, args)) && Full(view, k, ExecZAdd(r, view, k, args))
  {
    ScoredErrors(args.pairs);
    if Scored(args.pairs).Success? && ZsetAt(view, k).Success? {
      WriteAllEmpty(ZsetAt(view, k).value, Scored(args.pairs).value);
    }
    hide WriteAll, Scored;
  }

  lemma HDelTame(r: Room, view: View, k: Name, names: seq<Name>)
    ensures Tame(r, view, k, ExecHDel(view, k, names)) && Full(view, k, ExecHDel(view, k, names))
  {
    hide Named;
  }

  lemma ZRemTame(r: Room, view: View, k: Name, names: seq<Name>)
    ensures Tame(r, view, k, ExecZRem(view, k, names)) && Full(view, k, ExecZRem(view, k, names))
  {
    hide Named;
  }

  lemma ZRemRangeByScoreTame(r: Room, view: View, k: Name, low: Bound, high: Bound)
    ensures Tame(r, view, k, ExecZRemRangeByScore(view, k, low, high))
    ensures Full(view, k, ExecZRemRangeByScore(view, k, low, high))
  {
    hide OutOfRange;
  }

  lemma PExpireTame(r: Room, view: View, k: Name, ms: Value)
    ensures Tame(r, view, k, ExecPExpire(r, view, k, ms)) && Full(view, k, ExecPExpire(r, view, k, ms))
  {
  }

  lemma GetDelTame(r: Room, view: View, k: Name)
    ensures Tame(r, view, k, ExecGetDel(view, k)) && Full(view, k, ExecGetDel(view, k))
  {
  }

  lemma CommandTame(r: Room, view: View, c: Command, o: Outcome)
    requires Exec(r, view, c, o) && !c.Del? && !c.Exists?
    ensures Tame(r, view, c.key, o) && (Full(view, c.key, o) <==> !MakesEmpty(r, view, c))
  {
    hide Full, MakesEmpty, ExecSet, ExecHSet, ExecHIncrBy, ExecZAdd, ExecHDel, ExecZRem, ExecZRemRangeByScore, ExecPExpire,
         ExecGetDel;
    NotHSet(r, view, c);
    SameIsFull(view, c.key, o);
    match c
    case Set(k, v, options) => SetTame(r, view, k, v, options);
    case HSet(k, args) => HSetTame(r, view, k, args);
    case HIncrBy(k, f, increment) => HIncrByTame(r, view, k, f, increment);
    case ZAdd(k, args) => ZAddTame(r, view, k, args);
    case HDel(k, names) => HDelTame(r, view, k, names);
    case ZRem(k, names) => ZRemTame(r, view, k, names);
    case ZRemRangeByScore(k, low, high) => ZRemRangeByScoreTame(r, view, k, low, high);
    case PExpire(k, ms) => PExpireTame(r, view, k, ms);
    case GetDel(k) => GetDelTame(r, view, k);
    case _ =>
  }

  lemma NotHSet(r: Room, view: View, c: Command)
    ensures !c.HSet? ==> !MakesEmpty(r, view, c)
  {
  }

  lemma SameIsFull(view: View, k: Name, o: Outcome)
    ensures o.view == view ==> Full(view, k, o)
  {
  }

  lemma OtherKeysKept(r: Room, view: View, c: Command, o: Outcome, k: Name)
    requires Exec(r, view, c, o) && k !in Touched(c)
    ensures k in o.view <==> k in view
    ensures k in view ==> o.view[k] == view[k]
  {
    if !c.Del? && !c.Exists? {
      CommandTame(r, view, c, o);
      hide Exec;
    }
  }

  // ---------------------------------------------------------------------------
  // No empty hash or sorted set.

  ghost predicate NoEmpty(view: View) {
    forall k :: k in view ==> !Empty(view[k])
  }

  /** The one write that makes a container without members: HSET with no field on a key that is not there. */
  predicate MakesEmpty(r: Room, view: View, c: Command) {
    c.HSet? && c.hashArgs == Record([]) && c.key !in view && Refusal(r, view, c.key).None?
  }

  lemma {:induction false} WriteAllEmpty<V>(m: map<Name, V>, pairs: seq<(Name, V)>)
    ensures WriteAll(m, pairs) == map[] <==> m == map[] && pairs == []
  {
    if pairs != [] {
      assert pairs[|pairs| - 1].0 in WriteAll(m, pairs);
    }
  }

  /** From a store without empty containers, a command leaves one if and only if it is that write. */
  lemma NoEmptyKeptIff(r: Room, view: View, c: Command, o: Outcome)
    requires Exec(r, view, c, o) && NoEmpty(view)
    ensures NoEmpty(o.view) <==> !MakesEmpty(r, view, c)
  {
    if c.Del? || c.Exists? {
      NotHSet(r, view, c);
      hide MakesEmpty, Empty;
    } else {
      CommandTame(r, view, c, o);
      hide Exec, MakesEmpty, Empty;
    }
  }

  /** The write that makes an empty container can be received: on an empty store with room for one key. */
  lemma FieldlessHSetLeavesEmptyHash(now: int, max: nat, key: Name)
    requires max > 0
    ensures Exec(Room(now, max, None), map[], HSet(key, Record([])), Answer(map[key := Hash(map[], None)], Int(0)))
    ensures NoEmpty(map[]) && !NoEmpty(map[key := Hash(map[], None)])
  {
    var after: View := map[key := Hash(map[], None)];
    assert Empty(after[key]);
  }

  predicate Fieldless(c: Command) {
    c.HSet? && c.hashArgs == Record([])
  }

  predicate GivesFields(e: Event) {
    && (e.Single? ==> !Fieldless(e.command))
    && (e.Script? ==> forall c :: c in e.commands ==> !Fieldless(c))
  }

  lemma {:induction false} RepliesKeepNoEmpty(
      r: Room, commands: seq<Command>, replies: seq<Result<Reply, Error>>, views: seq<View>, n: nat)
    requires Replies(r, commands, replies, views) && n <= |replies| && NoEmpty(views[0])
    requires forall c :: c in commands ==> !Fieldless(c)
    ensures NoEmpty(views[n])
    decreases n
  {
    hide Exec, NoEmpty;
    if n > 0 {
      RepliesKeepNoEmpty(r, commands, replies, views, n - 1);
      assert commands[n - 1] in commands;
      NoEmptyKeptIff(r, views[n - 1], commands[n - 1], Outcome(replies[n - 1], views[n]));
    }
  }

  lemma EventKeepsNoEmpty(max: nat, m: Moment, e: Event, a: Answered, m': Moment)
    requires Explained(max, m, e, a, m') && NoEmpty(m.view) && GivesFields(e)
    ensures NoEmpty(m'.view)
  {
    match e
    case Advance(_) =>
    case Reclaim =>
    case Single(c) =>
      hide Exec;
      NoEmptyKeptIff(Room(m.now, max, None), m.view, c, Outcome(a.reply, m'.view));
    case Script(creatable, commands) =>
      if a.admitted {
        hide Exec, Replies, Admits, NoEmpty;
        var r := Room(m.now, max, Some(Named(creatable)));
        var views :| Replies(r, commands, a.replies, views) && RanThrough(commands, a.replies)
                     && views[0] == m.view && views[|a.replies|] == m'.view;
        RepliesKeepNoEmpty(r, commands, a.replies, views, |a.replies|);
      }
  }

  /** Over any trace whose HSETs give fields, no hash or sorted set is ever left empty. */
  lemma {:induction false} TraceKeepsNoEmpty(
      max: nat, moments: seq<Moment>, events: seq<Event>, answers: seq<Answered>, n: nat)
    requires |answers| == |events| && |moments| == |events| + 1 && n <= |events|
    requires forall i :: 0 <= i < |events| ==> Explained(max, moments[i], events[i], answers[i], moments[i + 1])
    requires NoEmpty(moments[0].view) && forall e :: e in events ==> GivesFields(e)
    ensures NoEmpty(moments[n].view)
    decreases n
  {
    hide Explained, NoEmpty, GivesFields;
    if n > 0 {
      TraceKeepsNoEmpty(max, moments, events, answers, n - 1);
      assert events[n - 1] in events;
      EventKeepsNoEmpty(max, moments[n - 1], events[n - 1], answers[n - 1], moments[n]);
    }
  }

  // ---------------------------------------------------------------------------
  // Reading back.

  /** What SET stored is read back until its new expiry, and the old expiry is gone. */
  lemma SetReadsBack(r: Room, view: View, k: Name, v: Value, options: seq<SetOption>, o: Outcome, later: int)
    requires Exec(r, view, Command.Set(k, v, options), o) && o.reply == Success(Okay) && r.now <= later
    ensures Plan(r.now, options).Success?
    ensures var expiry := Plan(r.now, options).value.expiresAt;
            if expiry.Some? && expiry.value <= later then k !in Live(o.view, later)
            else ExecGet(Live(o.view, later), k) == Success(Bulk(v))
                 && Ttl(Live(o.view, later), k, later) == if expiry.None? then -1 else expiry.value - later
  {
    hide Plan;
  }

  /** A field written by HSET reads as the last value given for it; the key keeps its expiry. */
  lemma HSetReadsBack(r: Room, view: View, k: Name, args: HashArgs, o: Outcome, j: nat)
    requires Exec(r, view, HSet(k, args), o) && o.reply.Success? && j < |args.pairs|
    requires forall n :: j < n < |args.pairs| ==> args.pairs[n].0 != args.pairs[j].0
    ensures HashAt(o.view, k).Success? && args.pairs[j].0 in HashAt(o.view, k).value
    ensures HashAt(o.view, k).value[args.pairs[j].0] == args.pairs[j].1
    ensures ExpiryAt(o.view, k) == ExpiryAt(view, k)
  {
    LastWriteWins(HashAt(view, k).value, args.pairs, j);
    hide WriteAll;
  }

  lemma {:induction false} LastWriteWins<V>(m: map<Name, V>, pairs: seq<(Name, V)>, j: nat)
    requires j < |pairs| && forall n :: j < n < |pairs| ==> pairs[n].0 != pairs[j].0
    ensures pairs[j].0 in WriteAll(m, pairs) && WriteAll(m, pairs)[pairs[j].0] == pairs[j].1
    decreases |pairs|
  {
    if j < |pairs| - 1 {
      LastWriteWins(m, pairs[..|pairs| - 1], j);
    }
  }

  /** PEXPIRE ends a key at its time and not before. */
  lemma PExpireEndsKey(r: Room, view: View, k: Name, ms: Value, o: Outcome, later: int)
    requires Exec(r, view, PExpire(k, ms), o) && o.reply == Success(Int(1)) && ms.Num? && r.now <= later
    requires forall n :: n in view ==> Alive(view[n], r.now)
    ensures k in Live(o.view, later) <==> later < r.now + ms.n
  {
  }

  // ---------------------------------------------------------------------------
  // Scripts and the cap.

  lemma {:induction false} PlanErrors(now: int, options: seq<SetOption>)
    ensures Plan(now, options).Failure? ==> Plan(now, options).error in {NotInteger, BadOption}
  {
    if options != [] {
      PlanErrors(now, options[..|options| - 1]);
    }
  }

  /** Scores that pass have the same number of members; a failure is always about a score. */
  lemma {:induction false} ScoredErrors(pairs: seq<(Option<real>, Name)>)
    ensures Scored(pairs).Failure? ==> Scored(pairs).error == NotFloat
    ensures Scored(pairs).Success? ==> |Scored(pairs).value| == |pairs|
  {
    if pairs != [] {
      ScoredErrors(pairs[..|pairs| - 1]);
    }
  }

  /** Inside a script no command runs out of room; it stops on an undeclared key only if it would create it. */
  lemma ScriptCommandHasRoom(r: Room, view: View, c: Command, o: Outcome)
    requires Exec(r, view, c, o) && r.creates.Some?
    ensures o.reply != Failure(OutOfMemory)
    ensures forall k :: o.reply == Failure(Undeclared(k)) ==> Touched(c) == {k} && k !in view && k !in r.creates.value
  {
    if !c.Del? && !c.Exists? {
      CommandTame(r, view, c, o);
      hide Exec;
    }
  }

  /** An admitted script whose every key is declared or there from the start is never stopped for room or declaration. */
  lemma DeclaredScriptRunsThrough(
      r: Room, commands: seq<Command>, replies: seq<Result<Reply, Error>>, views: seq<View>, i: nat)
    requires Replies(r, commands, replies, views) && r.creates.Some? && i < |replies|
    requires forall j :: 0 <= j <= i ==> Touched(commands[j]) <= r.creates.value || !Removes(commands[j])
    requires forall j :: 0 <= j <= i ==> Touched(commands[j]) <= r.creates.value + views[0].Keys
    ensures replies[i] != Failure(OutOfMemory)
    ensures forall k :: replies[i] != Failure(Undeclared(k))
  {
    hide Exec;
    ScriptCommandHasRoom(r, views[i], commands[i], Outcome(replies[i], views[i + 1]));
    UndeclaredKeysStay(r, commands, replies, views, i);
  }

  /** Commands that can make a key disappear. */
  predicate Removes(c: Command) {
    c.Del? || c.GetDel? || c.HDel? || c.ZRem? || c.ZRemRangeByScore? || c.PExpire? || c.Set?
  }

  lemma {:induction false} UndeclaredKeysStay(
      r: Room, commands: seq<Command>, replies: seq<Result<Reply, Error>>, views: seq<View>, i: nat)
    requires Replies(r, commands, replies, views) && r.creates.Some? && i <= |replies|
    requires forall j :: 0 <= j < i ==> Touched(commands[j]) <= r.creates.value || !Removes(commands[j])
    ensures views[0].Keys - r.creates.value <= views[i].Keys
    decreases i
  {
    hide Exec, Removes;
    if i > 0 {
      UndeclaredKeysStay(r, commands, replies, views, i - 1);
      forall k | k in views[0] && k !in r.creates.value
        ensures k in views[i]
      {
        if k in Touched(commands[i - 1]) {
          OthersStay(r, views[i - 1], commands[i - 1], Outcome(replies[i - 1], views[i]));
        } else {
          OtherKeysKept(r, views[i - 1], commands[i - 1], Outcome(replies[i - 1], views[i]), k);
        }
      }
    }
  }

  lemma OthersStay(r: Room, view: View, c: Command, o: Outcome)
    requires Exec(r, view, c, o) && !Removes(c)
    ensures view.Keys <= o.view.Keys
  {
    hide WriteAll, Scored, RangeReply, CountIn, Pairs, HashAt, ZsetAt, Refusal, ExpiryAt, Ttl;
  }

  /** Keys a command adds are declared, or there was room. */
  lemma NewKeysAllowed(r: Room, view: View, c: Command, o: Outcome, k: Name)
    requires Exec(r, view, c, o) && k in o.view && k !in view
    ensures !c.Del? && !c.Exists? && k == c.key && Refusal(r, view, k).None?
  {
    if !c.Del? && !c.Exists? {
      CommandTame(r, view, c, o);
      hide Exec;
    }
  }

  /** A script adds declared keys only. */
  lemma {:induction false} ScriptAddsDeclared(
      r: Room, commands: seq<Command>, replies: seq<Result<Reply, Error>>, views: seq<View>, n: nat)
    requires Replies(r, commands, replies, views) && r.creates.Some? && n <= |replies|
    ensures views[n].Keys <= views[0].Keys + r.creates.value
    decreases n
  {
    hide Exec;
    if n > 0 {
      ScriptAddsDeclared(r, commands, replies, views, n - 1);
      forall k | k in views[n] && k !in views[n - 1]
        ensures k in r.creates.value
      {
        NewKeysAllowed(r, views[n - 1], commands[n - 1], Outcome(replies[n - 1], views[n]), k);
      }
    }
  }

  /** Keys added within what was declared fit an admission. */
  lemma DeclaredFits(max: nat, view: View, creates: set<Name>, view': View)
    requires |view| <= max && Admits(max, view, creates) && view'.Keys <= view.Keys + creates
    ensures |view'| <= max
  {
    var missing := creates - view.Keys;
    SizeMonotone(view'.Keys, view.Keys + missing);
    SizeOfUnion(view.Keys, missing);
    assert |view'| == |view'.Keys| && |view| == |view.Keys|;
  }

  /** An admitted script leaves no more keys than the cap. */
  lemma ScriptStaysUnderCap(
      r: Room, commands: seq<Command>, replies: seq<Result<Reply, Error>>, views: seq<View>, n: nat)
    requires Replies(r, commands, replies, views) && r.creates.Some? && n <= |replies|
    requires |views[0]| <= r.max && Admits(r.max, views[0], r.creates.value)
    ensures views[n].Keys <= views[0].Keys + r.creates.value
    ensures |views[n]| <= r.max
  {
    hide Exec, Admits;
    ScriptAddsDeclared(r, commands, replies, views, n);
    DeclaredFits(r.max, views[0], r.creates.value, views[n]);
  }

  /**
   * A script that declares no key, as leaving a room does, always runs: however
   * full the store it is admitted, meets no cap, and leaves no key that was not there.
   */
  lemma LeavingScriptAlwaysRuns(
      now: int, max: nat, commands: seq<Command>, replies: seq<Result<Reply, Error>>, views: seq<View>, n: nat)
    requires Replies(Room(now, max, Some({})), commands, replies, views) && n <= |replies|
    ensures Admits(max, views[0], {})
    ensures n < |replies| ==> replies[n] != Failure(OutOfMemory)
    ensures views[n].Keys <= views[0].Keys && |views[n]| <= |views[0]|
  {
    hide Exec;
    var r := Room(now, max, Some({}));
    ScriptAddsDeclared(r, commands, replies, views, n);
    SizeMonotone(views[n].Keys, views[0].Keys);
    assert |views[n]| == |views[n].Keys| && |views[0]| == |views[0].Keys|;
    if n < |replies| {
      ScriptCommandHasRoom(r, views[n], commands[n], Outcome(replies[n], views[n + 1]));
    }
  }

  /** Outside scripts a command leaves no more keys than the cap. */
  lemma CommandStaysUnderCap(r: Room, view: View, c: Command, o: Outcome)
    requires Exec(r, view, c, o) && r.creates.None? && |view| <= r.max
    ensures |o.view| <= r.max
  {
    hide Exec;
    forall k | k in o.view && k !in view
      ensures !c.Del? && !c.Exists? && k == c.key && Refusal(r, view, k).None?
    {
      NewKeysAllowed(r, view, c, o, k);
    }
    if o.view.Keys <= view.Keys {
      SizeMonotone(o.view.Keys, view.Keys);
    } else {
      SizeMonotone(o.view.Keys, view.Keys + {c.key});
    }
    assert |view| == |view.Keys| && |o.view| == |o.view.Keys|;
  }
}
