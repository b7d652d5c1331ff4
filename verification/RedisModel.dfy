/**
 * The store as a timed map: what every command answers and leaves behind when
 * a key past its expiry simply does not exist. The keyspace class refines this.
 *
 * Keys, fields and members are ordered names; a value is a number or other text.
 */
module RedisModel {
  import opened Wrappers

  datatype Name = Name(code: int)

  datatype Value = Num(n: int) | Text(id: Name)

  datatype Entry =
    | Str(value: Value, expiresAt: Option<int>)
    | Hash(fields: map<Name, Value>, expiresAt: Option<int>)
    | Zset(scores: map<Name, real>, expiresAt: Option<int>)

  type View = map<Name, Entry>

  datatype Error =
    | WrongType
    | NotInteger
    | HashNotInteger
    | WrongArguments
    | NotFloat
    | BadOption
    | OutOfMemory
    | Undeclared(key: Name)
    | NotEmpty
    | Malformed

  datatype Reply =
    | Nil
    | Okay
    | Int(n: int)
    | Bulk(value: Value)
    | Fields(fields: map<Name, Value>)
    | Members(members: seq<Name>)

  datatype SetOption = Ex(amount: Option<Value>) | Px(amount: Option<Value>) | Nx | Xx | Unknown

  /** One record, or a flat list of names and values that may miss its last value. */
  datatype HashArgs = Record(pairs: seq<(Name, Value)>) | Flat(pairs: seq<(Name, Value)>, dangling: bool)

  /** None is a score that is not a number. */
  datatype ZsetArgs = ZsetArgs(pairs: seq<(Option<real>, Name)>, dangling: bool)

  datatype Bound = NegInf | PosInf | Finite(score: real) | NotANumber

  datatype Command =
    | Get(key: Name)
    | Set(key: Name, value: Value, options: seq<SetOption>)
    | GetDel(key: Name)
    | HSet(key: Name, hashArgs: HashArgs)
    | HGet(key: Name, field: Name)
    | HGetAll(key: Name)
    | HDel(key: Name, fields: seq<Name>)
    | HIncrBy(key: Name, field: Name, increment: Value)
    | ZAdd(key: Name, zsetArgs: ZsetArgs)
    | ZRange(key: Name, start: Value, stop: Value)
    | ZRem(key: Name, members: seq<Name>)
    | ZRemRangeByScore(key: Name, low: Bound, high: Bound)
    | Exists(keys: seq<Name>)
    | Del(keys: seq<Name>)
    | PExpire(key: Name, millis: Value)
    | PTtl(key: Name)

  /** What may be created: the cap, and inside a script the keys it declared. */
  datatype Room = Room(now: int, max: nat, creates: Option<set<Name>>)

  datatype Outcome = Outcome(reply: Result<Reply, Error>, view: View)

  predicate Alive(e: Entry, now: int) {
    e.expiresAt.None? || e.expiresAt.value > now
  }

  function Live(data: View, now: int): View {
    map k | k in data && Alive(data[k], now) :: data[k]
  }

  predicate Empty(e: Entry) {
    (e.Hash? && e.fields == map[]) || (e.Zset? && e.scores == map[])
  }

  function Integer(v: Value): Option<int> {
    if v.Num? then Some(v.n) else None
  }

  // ---------------------------------------------------------------------------
  // Writing entries.

  /** Why a key may not be written, if it may not. */
  function Refusal(r: Room, view: View, key: Name): Option<Error> {
    if key in view then None
    else if r.creates.Some? then (if key in r.creates.value then None else Some(Undeclared(key)))
    else if |view| >= r.max then Some(OutOfMemory)
    else None
  }

  /** An entry written already expired is gone. */
  function Put(view: View, key: Name, e: Entry, now: int): View {
    if Alive(e, now) then view[key := e] else view - {key}
  }

  /** A hash or sorted set without members disappears. */
  function PutOrDrop(view: View, key: Name, e: Entry): View {
    if Empty(e) then view - {key} else view[key := e]
  }

  function Fail(view: View, e: Error): Outcome {
    Outcome(Failure(e), view)
  }

  function Answer(view: View, reply: Reply): Outcome {
    Outcome(Success(reply), view)
  }

  function Named(names: seq<Name>): set<Name> {
    set n | n in names
  }

  // ---------------------------------------------------------------------------
  // Strings.

  datatype SetPlan = SetPlan(expiresAt: Option<int>, condition: Option<SetOption>)

  /** Options are read left to right; later ones win. */
  function Plan(now: int, options: seq<SetOption>): Result<SetPlan, Error> {
    if options == [] then Success(SetPlan(None, None))
    else
      var before := Plan(now, options[..|options| - 1]);
      if before.Failure? then before else Apply(now, before.value, options[|options| - 1])
  }

  function Apply(now: int, plan: SetPlan, option: SetOption): Result<SetPlan, Error> {
    match option
    case Ex(a) =>
      if a.None? || a.value.Text? then Failure(NotInteger)
      else Success(plan.(expiresAt := Some(now + 1000 * a.value.n)))
    case Px(a) =>
      if a.None? || a.value.Text? then Failure(NotInteger) else Success(plan.(expiresAt := Some(now + a.value.n)))
    case Unknown => Failure(BadOption)
    case _ => Success(plan.(condition := Some(option)))
  }

  function ExecSet(r: Room, view: View, key: Name, value: Value, options: seq<SetOption>): Outcome {
    var plan := Plan(r.now, options);
    if plan.Failure? then Fail(view, plan.error)
    else if (plan.value.condition == Some(Nx) && key in view) || (plan.value.condition == Some(Xx) && key !in view) then
      Answer(view, Nil)
    else
      var refusal := Refusal(r, view, key);
      if refusal.Some? then Fail(view, refusal.value)
      else Answer(Put(view, key, Str(value, plan.value.expiresAt), r.now), Okay)
  }

  function ExecGet(view: View, key: Name): Result<Reply, Error> {
    if key !in view then Success(Nil)
    else if view[key].Str? then Success(Bulk(view[key].value))
    else Failure(WrongType)
  }

  function ExecGetDel(view: View, key: Name): Outcome {
    var reply := ExecGet(view, key);
    Outcome(reply, if reply.Success? then view - {key} else view)
  }

  // ---------------------------------------------------------------------------
  // Hashes.

  function HashAt(view: View, key: Name): Result<map<Name, Value>, Error> {
    if key !in view then Success(map[])
    else if view[key].Hash? then Success(view[key].fields)
    else Failure(WrongType)
  }

  function ExpiryAt(view: View, key: Name): Option<int> {
    if key in view then view[key].expiresAt else None
  }

  function Pairs(args: HashArgs): Result<seq<(Name, Value)>, Error> {
    if args.Flat? && (args.pairs == [] || args.dangling) then Failure(WrongArguments) else Success(args.pairs)
  }

  /** The pairs written one after the other. */
  function WriteAll<V>(m: map<Name, V>, pairs: seq<(Name, V)>): map<Name, V> {
    if pairs == [] then m
    else
      var last := pairs[|pairs| - 1];
      WriteAll(m, pairs[..|pairs| - 1])[last.0 := last.1]
  }

  lemma OnePair<V>(m: map<Name, V>, k: Name, v: V)
    ensures WriteAll(m, [(k, v)]) == m[k := v]
  {
    assert [(k, v)][..0] == [];
  }

  lemma TwoPairs<V>(m: map<Name, V>, k: Name, v: V, k': Name, v': V)
    ensures WriteAll(m, [(k, v), (k', v')]) == m[k := v][k' := v']
  {
    assert [(k, v), (k', v')][..1] == [(k, v)];
    OnePair(m, k, v);
  }

  function ExecHSet(r: Room, view: View, key: Name, args: HashArgs): Outcome {
    var pairs := Pairs(args);
    var hash := HashAt(view, key);
    if pairs.Failure? then Fail(view, pairs.error)
    else if hash.Failure? then Fail(view, hash.error)
    else if Refusal(r, view, key).Some? then Fail(view, Refusal(r, view, key).value)
    else
      var written := WriteAll(hash.value, pairs.value);
      Answer(view[key := Hash(written, ExpiryAt(view, key))], Int(|written| - |hash.value|))
  }

  function ExecHDel(view: View, key: Name, fields: seq<Name>): Outcome {
    var hash := HashAt(view, key);
    if hash.Failure? then Fail(view, hash.error)
    else if key !in view then Answer(view, Int(0))
    else
      var left := hash.value - Named(fields);
      Answer(PutOrDrop(view, key, Hash(left, view[key].expiresAt)), Int(|hash.value| - |left|))
  }

  function ExecHIncrBy(r: Room, view: View, key: Name, field: Name, increment: Value): Outcome {
    var hash := HashAt(view, key);
    if increment.Text? then Fail(view, NotInteger)
    else if hash.Failure? then Fail(view, hash.error)
    else if Refusal(r, view, key).Some? then Fail(view, Refusal(r, view, key).value)
    else if field in hash.value && hash.value[field].Text? then Fail(view, HashNotInteger)
    else
      var next := (if field in hash.value then hash.value[field].n else 0) + increment.n;
      Answer(view[key := Hash(hash.value[field := Num(next)], ExpiryAt(view, key))], Int(next))
  }

  // ---------------------------------------------------------------------------
  // Sorted sets.

  function ZsetAt(view: View, key: Name): Result<map<Name, real>, Error> {
    if key !in view then Success(map[])
    else if view[key].Zset? then Success(view[key].scores)
    else Failure(WrongType)
  }

  /** The scored members with their scores checked. */
  function Scored(pairs: seq<(Option<real>, Name)>): Result<seq<(Name, real)>, Error> {
    if pairs == [] then Success([])
    else
      var before := Scored(pairs[..|pairs| - 1]);
      var last := pairs[|pairs| - 1];
      if before.Failure? then before
      else if last.0.None? then Failure(NotFloat)
      else Success(before.value + [(last.1, last.0.value)])
  }

  function ExecZAdd(r: Room, view: View, key: Name, args: ZsetArgs): Outcome {
    var pairs := Scored(args.pairs);
    var zset := ZsetAt(view, key);
    if args.pairs == [] || args.dangling then Fail(view, WrongArguments)
    else if pairs.Failure? then Fail(view, pairs.error)
    else if zset.Failure? then Fail(view, zset.error)
    else if Refusal(r, view, key).Some? then Fail(view, Refusal(r, view, key).value)
    else
      var written := WriteAll(zset.value, pairs.value);
      Answer(view[key := Zset(written, ExpiryAt(view, key))], Int(|written| - |zset.value|))
  }

  function ExecZRem(view: View, key: Name, members: seq<Name>): Outcome {
    var zset := ZsetAt(view, key);
    if zset.Failure? then Fail(view, zset.error)
    else if key !in view then Answer(view, Int(0))
    else
      var left := zset.value - Named(members);
      Answer(PutOrDrop(view, key, Zset(left, view[key].expiresAt)), Int(|zset.value| - |left|))
  }

  /** A bound that is not a number admits no score. */
  predicate Within(score: real, low: Bound, high: Bound) {
    && (low.NegInf? || (low.Finite? && score >= low.score))
    && (high.PosInf? || (high.Finite? && score <= high.score))
  }

  function OutOfRange(scores: map<Name, real>, low: Bound, high: Bound): map<Name, real> {
    map m | m in scores && !Within(scores[m], low, high) :: scores[m]
  }

  function ExecZRemRangeByScore(view: View, key: Name, low: Bound, high: Bound): Outcome {
    var zset := ZsetAt(view, key);
    if zset.Failure? then Fail(view, zset.error)
    else if key !in view then Answer(view, Int(0))
    else
      var left := OutOfRange(zset.value, low, high);
      Answer(PutOrDrop(view, key, Zset(left, view[key].expiresAt)), Int(|zset.value| - |left|))
  }

  /** Score first, member name on a tie. */
  predicate Precedes(scores: map<Name, real>, a: Name, b: Name)
    requires a in scores && b in scores
  {
    scores[a] < scores[b] || (scores[a] == scores[b] && a.code < b.code)
  }

  ghost predicate InRankOrder(scores: map<Name, real>, order: seq<Name>) {
    && (forall m :: m in order <==> m in scores)
    && (forall i, j :: 0 <= i < j < |order| ==> Precedes(scores, order[i], order[j]))
  }

  /** Indices below zero count from the end; both ends are brought inside. */
  function Clamp(length: nat, start: int, stop: int): (int, int) {
    var from := if start < 0 then start + length else start;
    var to := if stop < 0 then stop + length else stop;
    (if from < 0 then 0 else from, if to >= length then length - 1 else to)
  }

  function Slice(order: seq<Name>, start: int, stop: int): seq<Name> {
    var (from, to) := Clamp(|order|, start, stop);
    if from > to then [] else order[from..to + 1]
  }

  /** A reply is right for ZRANGE when it is the asked slice of the rank order. */
  ghost predicate RangeReply(view: View, key: Name, start: Value, stop: Value, reply: Result<Reply, Error>) {
    var zset := ZsetAt(view, key);
    if zset.Failure? then reply == Failure(zset.error)
    else if start.Text? || stop.Text? then reply == Failure(NotInteger)
    else exists order :: InRankOrder(zset.value, order) && reply == Success(Members(Slice(order, start.n, stop.n)))
  }

  // ---------------------------------------------------------------------------
  // Keys.

  function CountIn(view: View, keys: seq<Name>): nat {
    if keys == [] then 0
    else CountIn(view, keys[..|keys| - 1]) + if keys[|keys| - 1] in view then 1 else 0
  }

  function ExecPExpire(r: Room, view: View, key: Name, millis: Value): Outcome {
    if key !in view then Answer(view, Int(0))
    else if millis.Text? then Fail(view, NotInteger)
    else if millis.n <= 0 then Answer(view - {key}, Int(1))
    else Answer(view[key := view[key].(expiresAt := Some(r.now + millis.n))], Int(1))
  }

  function Ttl(view: View, key: Name, now: int): int {
    if key !in view then -2
    else if view[key].expiresAt.None? then -1
    else view[key].expiresAt.value - now
  }

  // ---------------------------------------------------------------------------

  /** What a command answers and leaves, from the live keys alone. */
  ghost predicate Exec(r: Room, view: View, c: Command, o: Outcome) {
    match c
    case Get(k) => o == Outcome(ExecGet(view, k), view)
    case Set(k, v, options) => o == ExecSet(r, view, k, v, options)
    case GetDel(k) => o == ExecGetDel(view, k)
    case HSet(k, args) => o == ExecHSet(r, view, k, args)
    case HGet(k, f) =>
      var hash := HashAt(view, k);
      o == if hash.Failure? then Fail(view, hash.error)
           else Answer(view, if f in hash.value then Bulk(hash.value[f]) else Nil)
    case HGetAll(k) =>
      var hash := HashAt(view, k);
      o == if hash.Failure? then Fail(view, hash.error) else Answer(view, Fields(hash.value))
    case HDel(k, fields) => o == ExecHDel(view, k, fields)
    case HIncrBy(k, f, increment) => o == ExecHIncrBy(r, view, k, f, increment)
    case ZAdd(k, args) => o == ExecZAdd(r, view, k, args)
    case ZRange(k, start, stop) => o.view == view && RangeReply(view, k, start, stop, o.reply)
    case ZRem(k, members) => o == ExecZRem(view, k, members)
    case ZRemRangeByScore(k, low, high) => o == ExecZRemRangeByScore(view, k, low, high)
    case Exists(keys) => o == Answer(view, Int(CountIn(view, keys)))
    case Del(keys) =>
      var left := view - Named(keys);
      o == Answer(left, Int(|view| - |left|))
    case PExpire(k, millis) => o == ExecPExpire(r, view, k, millis)
    case PTtl(k) => o == Answer(view, Int(Ttl(view, k, r.now)))
  }
}
