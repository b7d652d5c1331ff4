/**
 * What each command answers and leaves, key by key and field by field, and what
 * a whole trace of commands says about a value that can be taken once.
 */
module RedisOutcomes {
  import opened Wrappers
  import opened Sets
  import opened RedisModel
  import opened RedisCore
  import opened RedisLaws

  // ---------------------------------------------------------------- the rules

  ghost predicate OnlyKey(view: View, view': View, k: Name) {
    forall x | x != k :: (x in view' <==> x in view) && (x in view ==> view'[x] == view[x])
  }

  predicate HasRoom(r: Room, view: View, k: Name) {
    k in view || if r.creates.Some? then k in r.creates.value else |view| < r.max
  }

  /** Nothing is written: outside a script for want of room, inside one because the key was not declared. */
  predicate RefusedRoom(r: Room, view: View, k: Name, o: Outcome) {
    o == Fail(view, if r.creates.Some? then Undeclared(k) else OutOfMemory)
  }

  predicate Timed(option: SetOption) {
    option.Ex? || option.Px?
  }

  predicate Sound(option: SetOption) {
    !option.Unknown? && (Timed(option) ==> option.amount.Some? && option.amount.value.Num?)
  }

  predicate Conditional(option: SetOption) {
    option.Nx? || option.Xx?
  }

  /** EX is in seconds, PX in milliseconds. */
  function Millis(option: SetOption): int
    requires Timed(option) && Sound(option)
  {
    if option.Ex? then option.amount.value.n * 1000 else option.amount.value.n
  }

  /** The last option of its kind is the one that counts. */
  ghost predicate LastTimed(options: seq<SetOption>, i: nat) {
    i < |options| && Timed(options[i]) && forall j | i < j < |options| :: !Timed(options[j])
  }

  ghost predicate LastConditional(options: seq<SetOption>, i: nat) {
    i < |options| && Conditional(options[i]) && forall j | i < j < |options| :: !Conditional(options[j])
  }

  ghost predicate AllSound(options: seq<SetOption>) {
    forall i | 0 <= i < |options| :: Sound(options[i])
  }

  ghost predicate FirstUnsound(options: seq<SetOption>, e: Error) {
    exists i: nat | i < |options| && !Sound(options[i]) ::
      && e == (if options[i].Unknown? then BadOption else NotInteger)
      && forall j | 0 <= j < i :: Sound(options[j])
  }

  ghost predicate ExpiryRule(now: int, options: seq<SetOption>, expiresAt: Option<int>) {
    && (expiresAt.None? <==> forall i | 0 <= i < |options| :: !Timed(options[i]))
    && (forall i: nat | LastTimed(options, i) && Sound(options[i]) :: expiresAt == Some(now + Millis(options[i])))
  }

  ghost predicate ConditionRule(options: seq<SetOption>, condition: Option<SetOption>) {
    && (condition.None? <==> forall i | 0 <= i < |options| :: !Conditional(options[i]))
    && (forall i: nat | LastConditional(options, i) :: condition == Some(options[i]))
  }

  /** Options are checked from the left; the first that is wrong is the error. */
  ghost predicate PlanRule(now: int, options: seq<SetOption>, plan: Result<SetPlan, Error>) {
    if AllSound(options) then
      plan.Success? && ExpiryRule(now, options, plan.value.expiresAt) && ConditionRule(options, plan.value.condition)
    else plan.Failure? && FirstUnsound(options, plan.error)
  }

  ghost predicate SetRule(r: Room, view: View, k: Name, v: Value, options: seq<SetOption>, o: Outcome) {
    exists plan | PlanRule(r.now, options, plan) ::
      if plan.Failure? then o == Fail(view, plan.error)
      else if plan.value.condition == Some(if k in view then Nx else Xx) then o == Answer(view, Nil)
      else if !HasRoom(r, view, k) then RefusedRoom(r, view, k, o)
      else
        && o.reply == Success(Okay) && OnlyKey(view, o.view, k)
        && (k in o.view <==> plan.value.expiresAt.None? || plan.value.expiresAt.value > r.now)
        && (k in o.view ==> o.view[k] == Str(v, plan.value.expiresAt))
  }

  /** GETDEL answers as GET does, and what it answers is gone. */
  ghost predicate GetDelRule(view: View, k: Name, o: Outcome) {
    if k in view && !view[k].Str? then o == Fail(view, WrongType)
    else
      && k !in o.view && OnlyKey(view, o.view, k)
      && o.reply == Success(if k in view then Bulk(view[k].value) else Nil)
  }

  ghost predicate KeptBut<V>(prior: map<Name, V>, m: map<Name, V>, names: set<Name>) {
    forall f | f in prior && f !in names :: f in m && m[f] == prior[f]
  }

  ghost function NamesOf<V>(pairs: seq<(Name, V)>): set<Name> {
    set p | p in pairs :: p.0
  }

  /** Every name written holds the last value given for it, the other names what they held. */
  ghost predicate Written<V>(prior: map<Name, V>, pairs: seq<(Name, V)>, m: map<Name, V>) {
    && m.Keys == prior.Keys + NamesOf(pairs) && KeptBut(prior, m, NamesOf(pairs))
    && forall j: nat | j < |pairs| && (forall n | j < n < |pairs| :: pairs[n].0 != pairs[j].0) ::
         pairs[j].0 in m && m[pairs[j].0] == pairs[j].1
  }

  ghost predicate HSetRule(r: Room, view: View, k: Name, args: HashArgs, o: Outcome) {
    if args.Flat? && (|args.pairs| == 0 || args.dangling) then o == Fail(view, WrongArguments)
    else if k in view && !view[k].Hash? then o == Fail(view, WrongType)
    else if !HasRoom(r, view, k) then RefusedRoom(r, view, k, o)
    else
      var prior := if k in view then view[k].fields else map[];
      && OnlyKey(view, o.view, k) && k in o.view && o.view[k].Hash?
      && o.view[k].expiresAt == (if k in view then view[k].expiresAt else None)
      && Written(prior, args.pairs, o.view[k].fields)
      && o.reply == Success(Int(|NamesOf(args.pairs) - prior.Keys|))
  }

  /** What is left of the names, with what they held. */
  ghost predicate Rest<V>(prior: map<Name, V>, gone: set<Name>, m: map<Name, V>) {
    m.Keys == prior.Keys - gone && KeptBut(prior, m, gone)
  }

  ghost predicate HDelRule(view: View, k: Name, names: seq<Name>, o: Outcome) {
    if k !in view then o == Answer(view, Int(0))
    else if !view[k].Hash? then o == Fail(view, WrongType)
    else
      && OnlyKey(view, o.view, k) && o.reply == Success(Int(|view[k].fields.Keys * Named(names)|))
      && (k in o.view <==> !(view[k].fields.Keys <= Named(names)))
      && (k in o.view ==> o.view[k].Hash? && o.view[k].expiresAt == view[k].expiresAt
                          && Rest(view[k].fields, Named(names), o.view[k].fields))
  }

  /** A field that is not there counts from zero. */
  ghost predicate HIncrByRule(r: Room, view: View, k: Name, f: Name, increment: Value, o: Outcome) {
    if increment.Text? then o == Fail(view, NotInteger)
    else if k in view && !view[k].Hash? then o == Fail(view, WrongType)
    else if !HasRoom(r, view, k) then RefusedRoom(r, view, k, o)
    else
      var prior := if k in view then view[k].fields else map[];
      if f in prior && prior[f].Text? then o == Fail(view, HashNotInteger)
      else
        && OnlyKey(view, o.view, k) && k in o.view && o.view[k].Hash?
        && o.view[k].expiresAt == (if k in view then view[k].expiresAt else None)
        && o.view[k].fields.Keys == prior.Keys + {f} && KeptBut(prior, o.view[k].fields, {f})
        && f in o.view[k].fields && o.view[k].fields[f].Num?
        && o.reply == Success(Int(o.view[k].fields[f].n))
        && o.view[k].fields[f].n - increment.n == if f in prior then prior[f].n else 0
  }

  ghost predicate ZAddRule(r: Room, view: View, k: Name, args: ZsetArgs, o: Outcome) {
    if |args.pairs| == 0 || args.dangling then o == Fail(view, WrongArguments)
    else if exists i: nat | i < |args.pairs| :: args.pairs[i].0.None? then o == Fail(view, NotFloat)
    else if k in view && !view[k].Zset? then o == Fail(view, WrongType)
    else if !HasRoom(r, view, k) then RefusedRoom(r, view, k, o)
    else
      var prior := if k in view then view[k].scores else map[];
      && OnlyKey(view, o.view, k) && k in o.view && o.view[k].Zset?
      && o.view[k].expiresAt == (if k in view then view[k].expiresAt else None)
      && exists pairs: seq<(Name, real)> | |pairs| == |args.pairs| && Written(prior, pairs, o.view[k].scores) ::
           && (forall i | 0 <= i < |pairs| :: args.pairs[i] == (Some(pairs[i].1), pairs[i].0))
           && o.reply == Success(Int(|NamesOf(pairs) - prior.Keys|))
  }

  ghost predicate ZTakeRule(view: View, k: Name, gone: set<Name>, o: Outcome)
    requires k in view && view[k].Zset?
  {
    && OnlyKey(view, o.view, k) && o.reply == Success(Int(|view[k].scores.Keys * gone|))
    && (k in o.view <==> !(view[k].scores.Keys <= gone))
    && (k in o.view ==> o.view[k].Zset? && o.view[k].expiresAt == view[k].expiresAt
                        && Rest(view[k].scores, gone, o.view[k].scores))
  }

  ghost predicate ZRemRule(view: View, k: Name, names: seq<Name>, o: Outcome) {
    if k !in view then o == Answer(view, Int(0))
    else if !view[k].Zset? then o == Fail(view, WrongType)
    else ZTakeRule(view, k, Named(names), o)
  }

  /** A score on a bound is inside. */
  predicate Between(low: Bound, score: real, high: Bound) {
    && low != NotANumber && low != PosInf && !(low.Finite? && score < low.score)
    && high != NotANumber && high != NegInf && !(high.Finite? && score > high.score)
  }

  ghost predicate ZRemRangeRule(view: View, k: Name, low: Bound, high: Bound, o: Outcome) {
    if k !in view then o == Answer(view, Int(0))
    else if !view[k].Zset? then o == Fail(view, WrongType)
    else ZTakeRule(view, k, (set m | m in view[k].scores && Between(low, view[k].scores[m], high)), o)
  }

  /** A place counted from the end is below zero. */
  function Place(length: nat, i: int): int {
    if i < 0 then length + i else i
  }

  predicate Asked(length: nat, start: int, stop: int, i: nat) {
    Place(length, start) <= i <= Place(length, stop)
  }

  /** The members asked for are those at the places from the first to the last, both included. */
  ghost predicate Sliced(order: seq<Name>, start: int, stop: int, s: seq<Name>) {
    exists a: nat, b: nat | a <= b <= |order| && s == order[a..b] ::
      forall i: nat | i < |order| :: a <= i < b <==> Asked(|order|, start, stop, i)
  }

  ghost predicate ZRangeRule(view: View, k: Name, start: Value, stop: Value, o: Outcome) {
    && o.view == view
    && if k in view && !view[k].Zset? then o.reply == Failure(WrongType)
       else if start.Text? || stop.Text? then o.reply == Failure(NotInteger)
       else exists order: seq<Name> |
              InRankOrder(if k in view then view[k].scores else map[], order) ::
              && o.reply.Success? && o.reply.value.Members?
              && Sliced(order, start.n, stop.n, o.reply.value.members)
  }

  /** A key named twice is counted twice. */
  ghost predicate ExistsRule(view: View, keys: seq<Name>, o: Outcome) {
    o == Answer(view, Int(|set i: nat | i < |keys| && keys[i] in view|))
  }

  /** A key named twice is deleted, and counted, once. */
  ghost predicate DelRule(view: View, keys: seq<Name>, o: Outcome) {
    && (forall k :: k in o.view <==> k in view && k !in keys)
    && (forall k | k in o.view :: o.view[k] == view[k])
    && o.reply == Success(Int(|set k | k in view && k in keys|))
  }

  ghost predicate PExpireRule(now: int, view: View, k: Name, ms: Value, o: Outcome) {
    if k !in view then o == Answer(view, Int(0))
    else if ms.Text? then o == Fail(view, NotInteger)
    else
      && OnlyKey(view, o.view, k) && o.reply == Success(Int(1))
      && (k in o.view <==> ms.n > 0)
      && (k in o.view ==> o.view[k].expiresAt == Some(now + ms.n) && o.view[k].(expiresAt := view[k].expiresAt) == view[k])
  }

  ghost predicate PTtlRule(now: int, view: View, k: Name, o: Outcome) {
    && o.view == view && o.reply.Success? && o.reply.value.Int?
    && if k !in view then o.reply.value.n == -2
       else if view[k].expiresAt.None? then o.reply.value.n == -1
       else view[k].expiresAt.value == now + o.reply.value.n
  }

  ghost predicate HashReadRule(view: View, k: Name, o: Outcome, reply: Reply) {
    o == if k in view && !view[k].Hash? then Fail(view, WrongType) else Answer(view, reply)
  }

  ghost predicate CommandRule(r: Room, view: View, c: Command, o: Outcome) {
    match c
    case Get(k) =>
      o == if k in view && !view[k].Str? then Fail(view, WrongType)
           else Answer(view, if k in view then Bulk(view[k].value) else Nil)
    case Set(k, v, options) => SetRule(r, view, k, v, options, o)
    case GetDel(k) => GetDelRule(view, k, o)
    case HSet(k, args) => HSetRule(r, view, k, args, o)
    case HGet(k, f) =>
      HashReadRule(view, k, o, if k in view && view[k].Hash? && f in view[k].fields then Bulk(view[k].fields[f]) else Nil)
    case HGetAll(k) => HashReadRule(view, k, o, Fields(if k in view && view[k].Hash? then view[k].fields else map[]))
    case HDel(k, fields) => HDelRule(view, k, fields, o)
    case HIncrBy(k, f, increment) => HIncrByRule(r, view, k, f, increment, o)
    case ZAdd(k, args) => ZAddRule(r, view, k, args, o)
    case ZRange(k, start, stop) => ZRangeRule(view, k, start, stop, o)
    case ZRem(k, members) => ZRemRule(view, k, members, o)
    case ZRemRangeByScore(k, low, high) => ZRemRangeRule(view, k, low, high, o)
    case Exists(keys) => ExistsRule(view, keys, o)
    case Del(keys) => DelRule(view, keys, o)
    case PExpire(k, ms) => PExpireRule(r.now, view, k, ms, o)
    case PTtl(k) => PTtlRule(r.now, view, k, o)
  }

  // ---------------------------------------------------------------- the commands follow them

  lemma RoomIff(r: Room, view: View, k: Name)
    ensures Refusal(r, view, k).None? <==> HasRoom(r, view, k)
    ensures !HasRoom(r, view, k) ==> RefusedRoom(r, view, k, Fail(view, Refusal(r, view, k).value))
  {
  }

  /** One option more: the last one of its kind is that one, or the last there was. */
  lemma LastOf(options: seq<SetOption>, last: SetOption, i: nat)
    ensures LastTimed(options + [last], i) <==> if Timed(last) then i == |options| else LastTimed(options, i)
    ensures LastConditional(options + [last], i) <==> if Conditional(last) then i == |options| else LastConditional(options, i)
  {
    var all := options + [last];
    assert all[|options|] == last;
    assert forall j | 0 <= j < |options| :: all[j] == options[j];
  }

  lemma FailureOne(options: seq<SetOption>, last: SetOption)
    ensures AllSound(options + [last]) <==> AllSound(options) && Sound(last)
    ensures forall e | FirstUnsound(options, e) :: FirstUnsound(options + [last], e)
    ensures AllSound(options) && !Sound(last) ==> FirstUnsound(options + [last], if last.Unknown? then BadOption else NotInteger)
  {
    hide Sound;
    var all := options + [last];
    assert all[|options|] == last;
    assert forall j | 0 <= j < |options| :: all[j] == options[j];
    forall e | FirstUnsound(options, e) ensures FirstUnsound(all, e) {
      var i: nat :| i < |options| && !Sound(options[i]) && e == (if options[i].Unknown? then BadOption else NotInteger)
                    && forall j | 0 <= j < i :: Sound(options[j]);
      assert !Sound(all[i]);
    }
  }

  lemma NoneOf(options: seq<SetOption>, last: SetOption)
    ensures (forall i | 0 <= i < |options + [last]| :: !Timed((options + [last])[i]))
            <==> !Timed(last) && forall i | 0 <= i < |options| :: !Timed(options[i])
    ensures (forall i | 0 <= i < |options + [last]| :: !Conditional((options + [last])[i]))
            <==> !Conditional(last) && forall i | 0 <= i < |options| :: !Conditional(options[i])
  {
    hide Timed, Conditional;
    var all := options + [last];
    assert all[|options|] == last;
    assert forall j | 0 <= j < |options| :: all[j] == options[j];
  }

  lemma LastIsInside(options: seq<SetOption>)
    ensures forall i: nat | LastTimed(options, i) :: i < |options| && Timed(options[i])
    ensures forall i: nat | LastConditional(options, i) :: i < |options| && Conditional(options[i])
  {
    hide Timed, Conditional;
  }

  lemma ExpiryOne(now: int, options: seq<SetOption>, last: SetOption, before: Option<int>, after: Option<int>)
    requires ExpiryRule(now, options, before) && Sound(last)
    requires after == if Timed(last) then Some(now + Millis(last)) else before
    ensures ExpiryRule(now, options + [last], after)
  {
    hide LastTimed, Sound, Timed, Millis;
    var all := options + [last];
    assert all[|options|] == last;
    NoneOf(options, last);
    LastIsInside(all);
    LastIsInside(options);
    forall i: nat | LastTimed(all, i) && Sound(all[i]) ensures after == Some(now + Millis(all[i])) {
      LastOf(options, last, i);
      assert i < |options| ==> all[i] == options[i];
    }
  }

  lemma ConditionOne(options: seq<SetOption>, last: SetOption, before: Option<SetOption>, after: Option<SetOption>)
    requires ConditionRule(options, before)
    requires after == if Conditional(last) then Some(last) else before
    ensures ConditionRule(options + [last], after)
  {
    hide LastConditional, Conditional;
    var all := options + [last];
    assert all[|options|] == last;
    NoneOf(options, last);
    LastIsInside(all);
    LastIsInside(options);
    forall i: nat | LastConditional(all, i) ensures after == Some(all[i]) {
      LastOf(options, last, i);
      assert i < |options| ==> all[i] == options[i];
    }
  }

  lemma ApplyMeans(now: int, plan: SetPlan, option: SetOption)
    ensures Apply(now, plan, option) ==
              if !Sound(option) then Failure(if option.Unknown? then BadOption else NotInteger)
              else Success(SetPlan(if Timed(option) then Some(now + Millis(option)) else plan.expiresAt,
                                   if Conditional(option) then Some(option) else plan.condition))
  {
  }

  lemma NoOptions(now: int)
    ensures AllSound([]) && ExpiryRule(now, [], None) && ConditionRule([], None)
  {
  }

  lemma {:induction false} PlanMeans(now: int, options: seq<SetOption>)
    ensures PlanRule(now, options, Plan(now, options))
  {
    hide AllSound, FirstUnsound, ExpiryRule, ConditionRule, Apply, Sound, Timed, Conditional, Millis;
    NoOptions(now);
    if options != [] {
      var init, last := options[..|options| - 1], options[|options| - 1];
      assert options == init + [last];
      PlanMeans(now, init);
      FailureOne(init, last);
      if Plan(now, init).Success? {
        var plan := Plan(now, init).value;
        ApplyMeans(now, plan, last);
        if Sound(last) {
          ExpiryOne(now, init, last, plan.expiresAt, Plan(now, options).value.expiresAt);
          ConditionOne(init, last, plan.condition, Plan(now, options).value.condition);
        }
      }
    }
  }

  lemma SetFollows(r: Room, view: View, k: Name, v: Value, options: seq<SetOption>)
    ensures SetRule(r, view, k, v, options, ExecSet(r, view, k, v, options))
  {
    hide Plan, PlanRule, Refusal, HasRoom, RefusedRoom;
    PlanMeans(r.now, options);
    RoomIff(r, view, k);
    var plan := Plan(r.now, options);
  }

  lemma {:induction false} WriteAllWritten<V>(m: map<Name, V>, pairs: seq<(Name, V)>)
    ensures Written(m, pairs, WriteAll(m, pairs))
  {
    if pairs != [] {
      var init := pairs[..|pairs| - 1];
      var last := pairs[|pairs| - 1];
      WriteAllWritten(m, init);
      assert pairs == init + [last];
      assert NamesOf(pairs) == NamesOf(init) + {last.0};
      forall j: nat | j < |pairs| && (forall n | j < n < |pairs| :: pairs[n].0 != pairs[j].0)
        ensures pairs[j].0 in WriteAll(m, pairs) && WriteAll(m, pairs)[pairs[j].0] == pairs[j].1
      {
        if j < |init| {
          forall n | j < n < |init| ensures init[n].0 != init[j].0 {
            assert pairs[n].0 != pairs[j].0;
          }
        }
      }
    }
  }

  lemma NewNames<V>(prior: map<Name, V>, names: set<Name>, m: map<Name, V>)
    requires m.Keys == prior.Keys + names
    ensures |m| - |prior| == |names - prior.Keys|
  {
    assert m.Keys == prior.Keys + (names - prior.Keys);
    SizeOfUnion(prior.Keys, names - prior.Keys);
    assert |m| == |m.Keys| && |prior| == |prior.Keys|;
  }

  lemma LostNames<V>(prior: map<Name, V>, gone: set<Name>, m: map<Name, V>)
    requires m.Keys == prior.Keys - gone
    ensures |prior| - |m| == |prior.Keys * gone|
    ensures m == map[] <==> prior.Keys <= gone
  {
    assert prior.Keys == m.Keys + (prior.Keys * gone);
    SizeOfUnion(m.Keys, prior.Keys * gone);
    assert |m| == |m.Keys| && |prior| == |prior.Keys|;
    assert m == map[] <==> m.Keys == {};
  }

  lemma UpdatedKey(view: View, k: Name, e: Entry)
    ensures OnlyKey(view, view[k := e], k) && OnlyKey(view, PutOrDrop(view, k, e), k) && OnlyKey(view, view - {k}, k)
  {
  }

  lemma HSetWrites(r: Room, view: View, k: Name, args: HashArgs, prior: map<Name, Value>)
    requires HashAt(view, k) == Success(prior) && Refusal(r, view, k).None? && Pairs(args) == Success(args.pairs)
    ensures var o := ExecHSet(r, view, k, args);
      && OnlyKey(view, o.view, k) && k in o.view && o.view[k].Hash? && o.view[k].expiresAt == ExpiryAt(view, k)
      && Written(prior, args.pairs, o.view[k].fields)
      && o.reply == Success(Int(|NamesOf(args.pairs) - prior.Keys|))
  {
    hide WriteAll, NamesOf, KeptBut, Refusal, OnlyKey, ExpiryAt, HashAt, Pairs;
    var written := WriteAll(prior, args.pairs);
    WriteAllWritten(prior, args.pairs);
    NewNames(prior, NamesOf(args.pairs), written);
    UpdatedKey(view, k, Hash(written, ExpiryAt(view, k)));
  }

  lemma HSetFollows(r: Room, view: View, k: Name, args: HashArgs)
    ensures HSetRule(r, view, k, args, ExecHSet(r, view, k, args))
  {
    hide NamesOf, Refusal, HasRoom, RefusedRoom, OnlyKey, Written;
    RoomIff(r, view, k);
    if Pairs(args).Success? && HashAt(view, k).Success? && Refusal(r, view, k).None? {
      HSetWrites(r, view, k, args, HashAt(view, k).value);
      hide ExecHSet;
    }
  }

  lemma HDelFollows(view: View, k: Name, names: seq<Name>)
    ensures HDelRule(view, k, names, ExecHDel(view, k, names))
  {
    if k in view && view[k].Hash? {
      LostNames(view[k].fields, Named(names), view[k].fields - Named(names));
    }
    hide Named;
  }

  lemma HIncrByFollows(r: Room, view: View, k: Name, f: Name, increment: Value)
    ensures HIncrByRule(r, view, k, f, increment, ExecHIncrBy(r, view, k, f, increment))
  {
    hide Refusal, HasRoom, RefusedRoom, OnlyKey;
    RoomIff(r, view, k);
    var o := ExecHIncrBy(r, view, k, f, increment);
    if o.reply.Success? {
      UpdatedKey(view, k, o.view[k]);
    }
  }

  /** The checked pairs are the given ones, turned about. */
  lemma {:induction false} ScoredPairs(pairs: seq<(Option<real>, Name)>)
    ensures Scored(pairs).Failure? <==> exists i: nat | i < |pairs| :: pairs[i].0.None?
    ensures Scored(pairs).Failure? ==> Scored(pairs).error == NotFloat
    ensures Scored(pairs).Success? ==>
              && |Scored(pairs).value| == |pairs|
              && forall i | 0 <= i < |pairs| :: pairs[i] == (Some(Scored(pairs).value[i].1), Scored(pairs).value[i].0)
  {
    if pairs != [] {
      var init := pairs[..|pairs| - 1];
      ScoredPairs(init);
      assert forall i | 0 <= i < |pairs| :: pairs[i] == if i < |init| then init[i] else pairs[|pairs| - 1];
      if i: nat :| i < |init| && init[i].0.None? {
        assert pairs[i].0.None?;
      }
    }
  }

  lemma ZAddWrites(r: Room, view: View, k: Name, args: ZsetArgs, prior: map<Name, real>, pairs: seq<(Name, real)>)
    requires ZsetAt(view, k) == Success(prior) && Refusal(r, view, k).None?
    requires args.pairs != [] && !args.dangling && Scored(args.pairs) == Success(pairs)
    ensures var o := ExecZAdd(r, view, k, args);
      && OnlyKey(view, o.view, k) && k in o.view && o.view[k].Zset? && o.view[k].expiresAt == ExpiryAt(view, k)
      && Written(prior, pairs, o.view[k].scores)
      && o.reply == Success(Int(|NamesOf(pairs) - prior.Keys|))
  {
    hide WriteAll, NamesOf, KeptBut, Refusal, OnlyKey, ExpiryAt, ZsetAt, Scored;
    var written := WriteAll(prior, pairs);
    WriteAllWritten(prior, pairs);
    NewNames(prior, NamesOf(pairs), written);
    UpdatedKey(view, k, Zset(written, ExpiryAt(view, k)));
  }

  lemma ZAddFollows(r: Room, view: View, k: Name, args: ZsetArgs)
    ensures ZAddRule(r, view, k, args, ExecZAdd(r, view, k, args))
  {
    hide NamesOf, Scored, Refusal, HasRoom, RefusedRoom, OnlyKey, Written;
    RoomIff(r, view, k);
    ScoredPairs(args.pairs);
    if args.pairs != [] && !args.dangling && Scored(args.pairs).Success? && ZsetAt(view, k).Success? && Refusal(r, view, k).None? {
      ZAddWrites(r, view, k, args, ZsetAt(view, k).value, Scored(args.pairs).value);
      hide ExecZAdd;
    }
  }

  lemma ZRemFollows(view: View, k: Name, names: seq<Name>)
    ensures ZRemRule(view, k, names, ExecZRem(view, k, names))
  {
    if k in view && view[k].Zset? {
      LostNames(view[k].scores, Named(names), view[k].scores - Named(names));
    }
    hide Named;
  }

  lemma RangeRest(scores: map<Name, real>, low: Bound, high: Bound)
    ensures Rest(scores, (set m | m in scores && Between(low, scores[m], high)), OutOfRange(scores, low, high))
  {
  }

  lemma ZRemRangeFollows(view: View, k: Name, low: Bound, high: Bound)
    ensures ZRemRangeRule(view, k, low, high, ExecZRemRangeByScore(view, k, low, high))
  {
    hide Between, Within, OutOfRange, OnlyKey, KeptBut;
    if k in view && view[k].Zset? {
      var scores := view[k].scores;
      RangeRest(scores, low, high);
      LostNames(scores, (set m | m in scores && Between(low, scores[m], high)), OutOfRange(scores, low, high));
      UpdatedKey(view, k, Zset(OutOfRange(scores, low, high), view[k].expiresAt));
    }
  }

  lemma SliceIsSliced(order: seq<Name>, start: int, stop: int)
    ensures Sliced(order, start, stop, Slice(order, start, stop))
  {
    var (from, to) := Clamp(|order|, start, stop);
    var a: nat := if from > to then 0 else from;
    var b: nat := if from > to then 0 else to + 1;
    assert Slice(order, start, stop) == order[a..b];
  }

  lemma ZRangeFollows(view: View, k: Name, start: Value, stop: Value, o: Outcome)
    requires o.view == view && RangeReply(view, k, start, stop, o.reply)
    ensures ZRangeRule(view, k, start, stop, o)
  {
    if (k in view ==> view[k].Zset?) && start.Num? && stop.Num? {
      var scores := ZsetAt(view, k).value;
      var order :| InRankOrder(scores, order) && o.reply == Success(Members(Slice(order, start.n, stop.n)));
      SliceIsSliced(order, start.n, stop.n);
      hide Slice, Sliced, InRankOrder;
    }
  }

  lemma {:induction false} CountInPlaces(view: View, keys: seq<Name>)
    ensures CountIn(view, keys) == |set i: nat | i < |keys| && keys[i] in view|
  {
    if keys != [] {
      var init := keys[..|keys| - 1];
      CountInPlaces(view, init);
      var before := set i: nat | i < |init| && init[i] in view;
      var all := set i: nat | i < |keys| && keys[i] in view;
      var n: nat := |init|;
      assert all == if keys[n] in view then before + {n} else before;
    }
  }

  lemma DelFollows(view: View, keys: seq<Name>)
    ensures DelRule(view, keys, Answer(view - Named(keys), Int(|view| - |view - Named(keys)|)))
  {
    LostNames(view, Named(keys), view - Named(keys));
    var gone := Named(keys);
    assert forall k :: k in gone <==> k in keys;
    hide Named;
    assert (set k | k in view && k in keys) == view.Keys * gone;
  }

  lemma PlainFollows(r: Room, view: View, c: Command, o: Outcome)
    requires Exec(r, view, c, o) && (c.Get? || c.GetDel? || c.HGet? || c.HGetAll? || c.PExpire? || c.PTtl?)
    ensures CommandRule(r, view, c, o)
  {
  }

  /** Every command answers and leaves what the rules say. */
  lemma ExecFollowsRules(r: Room, view: View, c: Command, o: Outcome)
    requires Exec(r, view, c, o)
    ensures CommandRule(r, view, c, o)
  {
    if c.Get? || c.GetDel? || c.HGet? || c.HGetAll? || c.PExpire? || c.PTtl? {
      hide Exec, CommandRule;
      PlainFollows(r, view, c, o);
    } else {
      OtherFollows(r, view, c, o);
    }
  }

  lemma OtherFollows(r: Room, view: View, c: Command, o: Outcome)
    requires Exec(r, view, c, o) && !c.Get? && !c.GetDel? && !c.HGet? && !c.HGetAll? && !c.PExpire? && !c.PTtl?
    ensures CommandRule(r, view, c, o)
  {
    hide ExecSet, ExecHSet, ExecHDel, ExecHIncrBy, ExecZAdd, ExecZRem, ExecZRemRangeByScore, RangeReply, CountIn,
         SetRule, HSetRule, HDelRule, HIncrByRule, ZAddRule, ZRemRule, ZRemRangeRule, ZRangeRule, DelRule, Named, HashAt,
         HashReadRule, GetDelRule, PExpireRule, PTtlRule, ExecGetDel, ExecPExpire, ExecGet, Ttl;
    match c
    case Set(k, v, options) => SetFollows(r, view, k, v, options);
    case HSet(k, args) => HSetFollows(r, view, k, args);
    case HDel(k, fields) => HDelFollows(view, k, fields);
    case HIncrBy(k, f, increment) => HIncrByFollows(r, view, k, f, increment);
    case ZAdd(k, args) => ZAddFollows(r, view, k, args);
    case ZRange(k, start, stop) => ZRangeFollows(view, k, start, stop, o);
    case ZRem(k, members) => ZRemFollows(view, k, members);
    case ZRemRangeByScore(k, low, high) => ZRemRangeFollows(view, k, low, high);
    case Exists(keys) => CountInPlaces(view, keys);
    case Del(keys) => DelFollows(view, keys);
  }

  lemma WholeSlice(order: seq<Name>, s: seq<Name>)
    requires Sliced(order, 0, -1, s)
    ensures s == order
  {
    var a: nat, b: nat :| a <= b <= |order| && s == order[a..b]
                          && forall i: nat | i < |order| :: a <= i < b <==> Asked(|order|, 0, -1, i);
    assert |order| > 0 ==> Asked(|order|, 0, -1, 0) && Asked(|order|, 0, -1, |order| - 1);
  }

  /** ZRANGE from 0 to -1 is the whole rank order. */
  lemma WholeRange(view: View, k: Name, o: Outcome, r: Room)
    requires Exec(r, view, ZRange(k, Num(0), Num(-1)), o) && o.reply.Success?
    ensures o.reply.value.Members? && (k in view ==> view[k].Zset?)
    ensures InRankOrder(if k in view then view[k].scores else map[], o.reply.value.members)
  {
    hide RangeReply, Sliced, InRankOrder;
    ZRangeFollows(view, k, Num(0), Num(-1), o);
    var order :| InRankOrder(if k in view then view[k].scores else map[], order) && Sliced(order, 0, -1, o.reply.value.members);
    WholeSlice(order, o.reply.value.members);
  }

  // ---------------------------------------------------------------- taken once

  /** A command that was run, and its answer. */
  datatype Entered = Entered(command: Command, reply: Result<Reply, Error>)

  function Zip(commands: seq<Command>, replies: seq<Result<Reply, Error>>): seq<Entered>
    requires |replies| <= |commands|
  {
    seq(|replies|, i requires 0 <= i < |replies| => Entered(commands[i], replies[i]))
  }

  /** The commands an event ran: of a script those up to the first that threw, of a refused one none. */
  function Ran(e: Event, a: Answered): seq<Entered> {
    match e
    case Single(c) => if a.One? then [Entered(c, a.reply)] else []
    case Script(_, commands) => if a.Many? && |a.replies| <= |commands| then Zip(commands, a.replies) else []
    case _ => []
  }

  function Log(events: seq<Event>, answers: seq<Answered>): seq<Entered>
    requires |answers| == |events|
  {
    if events == [] then []
    else Log(events[..|events| - 1], answers[..|answers| - 1]) + Ran(events[|events| - 1], answers[|answers| - 1])
  }

  /** From one command of a log to the next keys may expire, and nothing else happens to the store. */
  ghost predicate Linked(view: View, x: Entered, view': View) {
    exists r, live: View :: live.Keys <= view.Keys && (forall k | k in live :: live[k] == view[k])
                            && Exec(r, live, x.command, Outcome(x.reply, view'))
  }

  ghost predicate Executed(view: View, x: Entered, view': View) {
    exists r :: Exec(r, view, x.command, Outcome(x.reply, view'))
  }

  ghost predicate Chained(log: seq<Entered>, views: seq<View>) {
    |views| == |log| + 1 && forall i: nat | i < |log| :: Linked(views[i], log[i], views[i + 1])
  }

  ghost predicate PartOf(live: View, view: View) {
    live.Keys <= view.Keys && forall k | k in live :: live[k] == view[k]
  }

  lemma Links(view: View, live: View, x: Entered, view': View)
    requires PartOf(live, view) && Executed(live, x, view')
    ensures Linked(view, x, view')
  {
    hide Exec;
    var r :| Exec(r, live, x.command, Outcome(x.reply, view'));
  }

  lemma Prolong(log: seq<Entered>, views: seq<View>, more: seq<Entered>, next: seq<View>) returns (all: seq<View>)
    requires Chained(log, views) && |next| == |more| + 1 && PartOf(next[0], views[|log|])
    requires forall i: nat | i < |more| :: Executed(next[i], more[i], next[i + 1])
    ensures Chained(log + more, all) && all[|log + more|] == if more == [] then views[|log|] else next[|more|]
  {
    hide Exec, Linked;
    all := views + next[1..];
    forall i: nat | i < |log + more| ensures Linked(all[i], (log + more)[i], all[i + 1]) {
      if i >= |log| {
        var n := i - |log|;
        Links(all[i], next[n], more[n], next[n + 1]);
      }
    }
  }

  lemma EventChained(max: nat, m: Moment, e: Event, a: Answered, m': Moment, log: seq<Entered>, views: seq<View>)
    returns (all: seq<View>)
    requires Explained(max, m, e, a, m') && Chained(log, views) && PartOf(m.view, views[|log|])
    ensures Chained(log + Ran(e, a), all) && PartOf(m'.view, all[|log + Ran(e, a)|])
  {
    hide Exec, Linked, Chained, Admits;
    all := views;
    match e
    case Single(c) =>
      var r := Room(m.now, max, None);
      assert Exec(r, m.view, c, Outcome(a.reply, m'.view));
      assert Executed(m.view, Ran(e, a)[0], m'.view);
      all := Prolong(log, views, Ran(e, a), [m.view, m'.view]);
    case Script(creatable, commands) =>
      if a.admitted {
        var r := Room(m.now, max, Some(Named(creatable)));
        var inner :| Replies(r, commands, a.replies, inner) && inner[0] == m.view && inner[|a.replies|] == m'.view;
        forall i: nat | i < |Ran(e, a)|
          ensures Executed(inner[i], Ran(e, a)[i], inner[i + 1])
        {
          assert Exec(r, inner[i], commands[i], Outcome(a.replies[i], inner[i + 1]));
        }
        all := Prolong(log, views, Ran(e, a), inner);
      } else {
        assert log + Ran(e, a) == log;
      }
    case _ =>
      assert log + Ran(e, a) == log;
  }

  lemma {:induction false} TraceChained(max: nat, moments: seq<Moment>, events: seq<Event>, answers: seq<Answered>)
    returns (views: seq<View>)
    requires |answers| == |events| && |moments| == |events| + 1
    requires forall i :: 0 <= i < |events| ==> Explained(max, moments[i], events[i], answers[i], moments[i + 1])
    ensures Chained(Log(events, answers), views) && PartOf(moments[|events|].view, views[|Log(events, answers)|])
    decreases |events|
  {
    hide Explained, Linked, Exec;
    if events == [] {
      views := [moments[0].view];
    } else {
      var n := |events| - 1;
      var before := TraceChained(max, moments[..n + 1], events[..n], answers[..n]);
      views := EventChained(max, moments[n], events[n], answers[n], moments[n + 1], Log(events[..n], answers[..n]), before);
    }
  }

  /** A SET of this value under the key, answered OK. */
  predicate Stores(x: Entered, k: Name, v: Value) {
    x.command.Set? && x.command.key == k && x.command.value == v && x.reply == Success(Okay)
  }

  /** A GETDEL of the key that answered this value. */
  predicate Takes(x: Entered, k: Name, v: Value) {
    x.command == GetDel(k) && x.reply == Success(Bulk(v))
  }

  ghost predicate HoldsStr(view: View, k: Name, v: Value) {
    k in view && view[k].Str? && view[k].value == v
  }

  /** Nothing but SET puts a string under a key. */
  ghost predicate NoNewString(view: View, view': View, k: Name) {
    k in view' && view'[k].Str? ==> k in view && view[k].Str? && view'[k].value == view[k].value
  }

  lemma HashNoString(r: Room, view: View, c: Command, o: Outcome)
    requires Exec(r, view, c, o) && (c.HSet? || c.HDel? || c.HIncrBy?)
    ensures NoNewString(view, o.view, c.key)
  {
    hide Refusal, WriteAll, Pairs;
  }

  lemma ZsetNoString(r: Room, view: View, c: Command, o: Outcome)
    requires Exec(r, view, c, o) && (c.ZAdd? || c.ZRem? || c.ZRemRangeByScore?)
    ensures NoNewString(view, o.view, c.key)
  {
    hide Refusal, WriteAll, Scored, OutOfRange;
  }

  /** A string is under a key because it was, or because it was just set. */
  lemma StringOrigin(r: Room, view: View, x: Entered, view': View, k: Name, v: Value)
    requires Exec(r, view, x.command, Outcome(x.reply, view')) && HoldsStr(view', k, v)
    ensures HoldsStr(view, k, v) || Stores(x, k, v)
  {
    hide RangeReply, CountIn, ExecHSet, ExecHDel, ExecHIncrBy, ExecZAdd, ExecZRem, ExecZRemRangeByScore, Plan, Refusal;
    var c, o := x.command, Outcome(x.reply, view');
    if k !in Touched(c) {
      OtherKeysKept(r, view, c, o, k);
    } else if c.HSet? || c.HDel? || c.HIncrBy? {
      HashNoString(r, view, c, o);
    } else if c.ZAdd? || c.ZRem? || c.ZRemRangeByScore? {
      ZsetNoString(r, view, c, o);
    }
  }

  lemma LinkOrigin(view: View, x: Entered, view': View, k: Name, v: Value)
    requires Linked(view, x, view') && HoldsStr(view', k, v)
    ensures HoldsStr(view, k, v) || Stores(x, k, v)
  {
    hide Exec;
    var r, live: View :| live.Keys <= view.Keys && (forall k | k in live :: live[k] == view[k])
                         && Exec(r, live, x.command, Outcome(x.reply, view'));
    StringOrigin(r, live, x, view', k, v);
  }

  lemma TakenIsGone(view: View, x: Entered, view': View, k: Name, v: Value)
    requires Linked(view, x, view') && Takes(x, k, v)
    ensures HoldsStr(view, k, v) && k !in view'
  {
    hide Exec;
    var r, live: View :| live.Keys <= view.Keys && (forall k | k in live :: live[k] == view[k])
                         && Exec(r, live, x.command, Outcome(x.reply, view'));
    ExecFollowsRules(r, live, x.command, Outcome(x.reply, view'));
  }

  /** A string under a key that was empty at place `i` was set after it. */
  lemma {:induction false} SetSince(log: seq<Entered>, views: seq<View>, k: Name, v: Value, i: nat, j: nat)
    requires Chained(log, views) && i <= j <= |log| && k !in views[i] && HoldsStr(views[j], k, v)
    ensures exists n: nat | i <= n < j :: Stores(log[n], k, v)
    decreases j
  {
    hide Linked, Stores;
    LinkOrigin(views[j - 1], log[j - 1], views[j], k, v);
    if !Stores(log[j - 1], k, v) {
      SetSince(log, views, k, v, i, j - 1);
    }
  }

  /**
   * What GETDEL answers can be taken once: whatever commands, scripts, waits and
   * sweeps make up a trace, between two GETDELs of one key that both answer a
   * value the second value was set again.
   */
  lemma TakenOnce(
      max: nat, moments: seq<Moment>, events: seq<Event>, answers: seq<Answered>, i: nat, j: nat, k: Name, v: Value, w: Value)
    requires |answers| == |events| && |moments| == |events| + 1
    requires forall n :: 0 <= n < |events| ==> Explained(max, moments[n], events[n], answers[n], moments[n + 1])
    requires i < j < |Log(events, answers)| && Takes(Log(events, answers)[i], k, v) && Takes(Log(events, answers)[j], k, w)
    ensures exists n: nat | i < n < j :: Stores(Log(events, answers)[n], k, w)
  {
    hide Explained, Linked, Takes, Stores, HoldsStr, Log;
    var views := TraceChained(max, moments, events, answers);
    var log := Log(events, answers);
    TakenIsGone(views[i], log[i], views[i + 1], k, v);
    TakenIsGone(views[j], log[j], views[j + 1], k, w);
    SetSince(log, views, k, w, i + 1, j);
  }
}
