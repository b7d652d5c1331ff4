/**
 * The per-room lock (SET NX PX, spin, token-checked release) around the
 * read-mutate-write of the stored game state, as interleaved steps.
 *
 * One `withLock` call is one actor, named by its token. Every `await` is a step
 * boundary; time moves only in `Tick`. The mutation is a parameter, so the
 * results hold for every rule a game plugs in.
 */
module RoomLock {
  import opened Wrappers

  type Token = nat

  datatype Lease = Lease(owner: Token, expiresAt: int)

  datatype Phase<V> =
    | Trying(deadline: int)              // about to send SET NX PX
    | Refused(deadline: int)             // SET NX PX answered null
    | Holding(until: int)                // lock taken, state not read yet
    | Loaded(until: int, seen: V)        // state read, not written back yet
    | Closing                            // in `finally`, release not sent yet
    | Done

  /** What a serial observer is told, in the order it takes effect. */
  datatype Event<V> = Applied(call: Token) | Initialized(value: V) | Removed

  datatype Room<V> = Room(
    now: int,
    lock: Option<Lease>,
    stored: Option<V>,
    calls: map<Token, Phase<V>>,
    acquired: seq<Token>,
    history: seq<Event<V>>
  )

  datatype Label<V> =
    | Tick(millis: nat)
    | Start(call: Token)
    | TryLock(call: Token)
    | CheckDeadline(call: Token)
    | Load(call: Token)
    | Commit(call: Token)
    | Abort(call: Token)                    // the action throws before writing
    | Unlock(call: Token, delivered: bool)  // a failed release is swallowed
    | Initialize(value: V)                  // SET NX, takes no lock
    | Remove                                // DEL or expiry, takes no lock

  datatype Timing = Timing(ttl: int, wait: int)

  /** A mutation: the new state, or None for "no change". */
  type Mutation<!V> = (Token, V) -> Option<V>

  predicate Free(lock: Option<Lease>, now: int) {
    lock.None? || lock.value.expiresAt <= now
  }

  function Move<V>(s: Room<V>, call: Token, phase: Phase<V>): Room<V> {
    s.(calls := s.calls[call := phase])
  }

  function Step<V>(f: Mutation<V>, t: Timing, s: Room<V>, l: Label<V>): Room<V> {
    match l
    case Tick(millis) => s.(now := s.now + millis)
    case Start(c) => if c in s.calls then s else Move(s, c, Trying(s.now + t.wait))
    case TryLock(c) => if c in s.calls && s.calls[c].Trying? then StepTryLock(t, s, c) else s
    case CheckDeadline(c) =>
      if c in s.calls && s.calls[c].Refused? then
        var deadline := s.calls[c].deadline;
        Move(s, c, if s.now >= deadline then Closing else Trying(deadline))
      else s
    case Load(c) => if c in s.calls && s.calls[c].Holding? then StepLoad(s, c) else s
    case Commit(c) => if c in s.calls && s.calls[c].Loaded? then StepCommit(f, s, c) else s
    case Abort(c) => if InSection(s, c) then Move(s, c, Closing) else s
    case Unlock(c, delivered) =>
      if c in s.calls && s.calls[c].Closing? then
        Move(s, c, Done).(lock := if delivered then UnlockIfOwner(s.lock, s.now, c) else s.lock)
      else s
    case Initialize(v) =>
      if s.stored.Some? then s else s.(stored := Some(v), history := s.history + [Initialized(v)])
    case Remove => s.(stored := None, history := s.history + [Removed])
  }

  function StepTryLock<V>(t: Timing, s: Room<V>, c: Token): Room<V>
    requires c in s.calls && s.calls[c].Trying?
  {
    if Free(s.lock, s.now) then
      Move(s, c, Holding(s.now + t.ttl))
        .(lock := Some(Lease(c, s.now + t.ttl)), acquired := s.acquired + [c])
    else Move(s, c, Refused(s.calls[c].deadline))
  }

  /** A room without state ends the action at once. */
  function StepLoad<V>(s: Room<V>, c: Token): Room<V>
    requires c in s.calls && s.calls[c].Holding?
  {
    match s.stored
    case None => Move(s, c, Closing).(history := s.history + [Applied(c)])
    case Some(v) => Move(s, c, Loaded(s.calls[c].until, v))
  }

  /** The write overwrites whatever is stored: the mutation saw `seen`. */
  function StepCommit<V>(f: Mutation<V>, s: Room<V>, c: Token): Room<V>
    requires c in s.calls && s.calls[c].Loaded?
  {
    var next := f(c, s.calls[c].seen);
    Move(s, c, Closing)
      .(stored := if next.Some? then next else s.stored, history := s.history + [Applied(c)])
  }

  /** GET and DEL inside one atomic script; an expired lock reads as absent. */
  function UnlockIfOwner(lock: Option<Lease>, now: int, token: Token): Option<Lease> {
    if !Free(lock, now) && lock.value.owner == token then None else lock
  }

  function Run<V>(f: Mutation<V>, t: Timing, s: Room<V>, labels: seq<Label<V>>): Room<V>
    decreases |labels|
  {
    if labels == [] then s else Run(f, t, Step(f, t, s, labels[0]), labels[1..])
  }

  lemma {:induction false} RunAppend<V>(
      f: Mutation<V>, t: Timing, s: Room<V>, first: seq<Label<V>>, rest: seq<Label<V>>)
    ensures Run(f, t, s, first + rest) == Run(f, t, Run(f, t, s, first), rest)
    decreases |first|
  {
    if first == [] {
      assert first + rest == rest;
    } else {
      assert (first + rest)[1..] == first[1..] + rest;
      RunAppend(f, t, Step(f, t, s, first[0]), first[1..], rest);
    }
  }

  function Fresh<V>(now: int, stored: Option<V>): Room<V> {
    Room(now, None, stored, map[], [], [])
  }

  /** The call runs the critical section, in lease or not. */
  predicate InSection<V>(s: Room<V>, c: Token) {
    c in s.calls && (s.calls[c].Holding? || s.calls[c].Loaded?)
  }

  /** The call runs the critical section and its lease has not run out. */
  predicate InLease<V>(s: Room<V>, c: Token) {
    InSection(s, c) && s.now < s.calls[c].until
  }

  // ---------------------------------------------------------------------------
  // Mutual exclusion: holds of every run, whatever the timing.

  ghost predicate LeaseOwned<V(!new)>(s: Room<V>) {
    forall c :: InLease(s, c) ==> s.lock == Some(Lease(c, s.calls[c].until))
  }

  ghost predicate Fair<V(!new)>(s: Room<V>) {
    && (forall i, j :: 0 <= i < j < |s.acquired| ==> s.acquired[i] != s.acquired[j])
    && (forall c :: c in s.acquired ==>
          c in s.calls && !s.calls[c].Trying? && !s.calls[c].Refused?)
    && (s.lock.Some? ==> s.acquired != [] && s.acquired[|s.acquired| - 1] == s.lock.value.owner)
  }

  lemma StepKeepsLeases<V(!new)>(f: Mutation<V>, t: Timing, s: Room<V>, l: Label<V>)
    requires LeaseOwned(s)
    ensures LeaseOwned(Step(f, t, s, l))
  {
    var s' := Step(f, t, s, l);
    forall c | InLease(s', c)
      ensures s'.lock == Some(Lease(c, s'.calls[c].until))
    {
      if InLease(s, c) {
        assert s.lock == Some(Lease(c, s.calls[c].until));
      }
    }
  }

  lemma StepKeepsQueue<V(!new)>(f: Mutation<V>, t: Timing, s: Room<V>, l: Label<V>)
    requires Fair(s)
    ensures Fair(Step(f, t, s, l))
  {
  }

  lemma StepKeepsLock<V(!new)>(f: Mutation<V>, t: Timing, s: Room<V>, l: Label<V>)
    requires LeaseOwned(s) && Fair(s)
    ensures LeaseOwned(Step(f, t, s, l)) && Fair(Step(f, t, s, l))
  {
    StepKeepsLeases(f, t, s, l);
    StepKeepsQueue(f, t, s, l);
    hide LeaseOwned, Fair, Step;
  }

  lemma {:induction false} RunKeepsLock<V(!new)>(f: Mutation<V>, t: Timing, s: Room<V>, labels: seq<Label<V>>)
    requires LeaseOwned(s) && Fair(s)
    ensures LeaseOwned(Run(f, t, s, labels)) && Fair(Run(f, t, s, labels))
    decreases |labels|
  {
    if labels != [] {
      StepKeepsLock(f, t, s, labels[0]);
      RunKeepsLock(f, t, Step(f, t, s, labels[0]), labels[1..]);
    }
  }

  /** In every run two calls inside their leases are the same call, and the lock is theirs. */
  lemma AtMostOneHolder<V(!new)>(
      f: Mutation<V>, t: Timing, now: int, stored: Option<V>, labels: seq<Label<V>>, c: Token, d: Token)
    requires InLease(Run(f, t, Fresh(now, stored), labels), c)
    requires InLease(Run(f, t, Fresh(now, stored), labels), d)
    ensures c == d
    ensures var s := Run(f, t, Fresh(now, stored), labels); s.lock == Some(Lease(c, s.calls[c].until))
  {
    RunKeepsLock(f, t, Fresh(now, stored), labels);
  }

  /** Only its owner's delivered release takes away a lock that has not run out, whatever the owner is doing. */
  lemma OnlyOwnerReleases<V>(f: Mutation<V>, t: Timing, s: Room<V>, l: Label<V>)
    requires !Free(s.lock, s.now)
    ensures Step(f, t, s, l).lock == s.lock || (l == Unlock(s.lock.value.owner, true) && Step(f, t, s, l).lock == None)
  {
  }

  lemma {:induction false} ClockGoesOn<V>(f: Mutation<V>, t: Timing, s: Room<V>, labels: seq<Label<V>>)
    ensures s.now <= Run(f, t, s, labels).now
    decreases |labels|
  {
    if labels != [] {
      ClockGoesOn(f, t, Step(f, t, s, labels[0]), labels[1..]);
    }
  }

  /**
   * Until it runs out, a lock outlives anything the other calls do, whether its
   * owner reads, writes or is about to release it.
   */
  lemma {:induction false} LockSurvivesOthers<V>(
      f: Mutation<V>, t: Timing, s: Room<V>, labels: seq<Label<V>>, owner: Token, until: int)
    requires s.lock == Some(Lease(owner, until))
    requires forall l :: l in labels ==> l != Unlock(owner, true)
    requires Run(f, t, s, labels).now < until
    ensures Run(f, t, s, labels).lock == s.lock
    decreases |labels|
  {
    ClockGoesOn(f, t, s, labels);
    if labels != [] {
      assert labels[0] in labels;
      assert forall l :: l in labels[1..] ==> l in labels;
      OnlyOwnerReleases(f, t, s, labels[0]);
      hide Step;
      LockSurvivesOthers(f, t, Step(f, t, s, labels[0]), labels[1..], owner, until);
    }
  }

  // ---------------------------------------------------------------------------
  // Linearizability: holds when critical sections fit their leases.

  /** One call run alone. */
  function Apply<V>(f: Mutation<V>, call: Token, stored: Option<V>): Option<V> {
    if stored.None? then None
    else if f(call, stored.value).Some? then f(call, stored.value) else stored
  }

  function Effect<V>(f: Mutation<V>, stored: Option<V>, e: Event<V>): Option<V> {
    match e
    case Applied(c) => Apply(f, c, stored)
    case Initialized(v) => Some(v)
    case Removed => None
  }

  /** The events one by one, with nothing in between. */
  function Serial<V>(f: Mutation<V>, stored: Option<V>, history: seq<Event<V>>): Option<V> {
    if history == [] then stored
    else Effect(f, Serial(f, stored, history[..|history| - 1]), history[|history| - 1])
  }

  /** The calls that took effect, in the order they did. */
  function Appliers<V>(history: seq<Event<V>>): seq<Token> {
    if history == [] then []
    else
      var rest := Appliers(history[..|history| - 1]);
      if history[|history| - 1].Applied? then rest + [history[|history| - 1].call] else rest
  }

  function Members(calls: seq<Token>): set<Token> {
    set c | c in calls
  }

  /** The acquisitions whose call took effect, in acquisition order. */
  function Finished(acquired: seq<Token>, done: set<Token>): seq<Token> {
    if acquired == [] then []
    else
      var rest := Finished(acquired[..|acquired| - 1], done);
      if acquired[|acquired| - 1] in done then rest + [acquired[|acquired| - 1]] else rest
  }

  /** Reads and writes happen inside the lease; the state is not removed under a reader. */
  ghost predicate Timely<V(!new)>(s: Room<V>, l: Label<V>) {
    && ((l.Load? || l.Commit?) && InSection(s, l.call) ==> InLease(s, l.call))
    && (l.Remove? ==> forall c :: InLease(s, c) ==> !s.calls[c].Loaded?)
  }

  ghost predicate TimelyRun<V(!new)>(f: Mutation<V>, t: Timing, s: Room<V>, labels: seq<Label<V>>)
    decreases |labels|
  {
    labels != [] ==> Timely(s, labels[0]) && TimelyRun(f, t, Step(f, t, s, labels[0]), labels[1..])
  }

  ghost predicate Faithful<V(!new)>(s: Room<V>) {
    forall c :: InLease(s, c) && s.calls[c].Loaded? ==> s.stored == Some(s.calls[c].seen)
  }

  ghost predicate InOrder<V(!new)>(s: Room<V>) {
    && var done := Members(Appliers(s.history));
    && Appliers(s.history) == Finished(s.acquired, done)
    && (forall c :: c in done ==> !InSection(s, c) && c in s.acquired)
  }

  ghost predicate Linear<V(!new)>(f: Mutation<V>, initial: Option<V>, s: Room<V>) {
    s.stored == Serial(f, initial, s.history) && Faithful(s) && InOrder(s)
  }

  lemma {:induction false} FinishedIgnores(acquired: seq<Token>, done: set<Token>, c: Token)
    requires c !in acquired
    ensures Finished(acquired, done + {c}) == Finished(acquired, done)
  {
    if acquired != [] {
      FinishedIgnores(acquired[..|acquired| - 1], done, c);
    }
  }

  /** A call that finishes last in line is appended to the finished ones. */
  lemma FinishedAppends(acquired: seq<Token>, done: set<Token>, c: Token)
    requires acquired != [] && acquired[|acquired| - 1] == c && c !in acquired[..|acquired| - 1]
    requires c !in done
    ensures Finished(acquired, done + {c}) == Finished(acquired, done) + [c]
  {
    FinishedIgnores(acquired[..|acquired| - 1], done, c);
  }

  lemma SerialSnoc<V>(f: Mutation<V>, initial: Option<V>, history: seq<Event<V>>, e: Event<V>)
    ensures Serial(f, initial, history + [e]) == Effect(f, Serial(f, initial, history), e)
    ensures Appliers(history + [e]) ==
            if e.Applied? then Appliers(history) + [e.call] else Appliers(history)
  {
    assert (history + [e])[..|history|] == history;
  }

  /** An acquisition by a call that has not taken effect yet. */
  lemma OrderAfterAcquire<V(!new)>(s: Room<V>, c: Token)
    requires InOrder(s) && c !in s.acquired
    ensures Finished(s.acquired + [c], Members(Appliers(s.history))) == Appliers(s.history)
  {
    assert (s.acquired + [c])[..|s.acquired|] == s.acquired;
  }

  /** The effect of the call that holds the lock comes after all earlier ones. */
  lemma OrderAfterApply<V(!new)>(s: Room<V>, c: Token)
    requires LeaseOwned(s) && Fair(s) && InOrder(s) && InLease(s, c)
    ensures var history := s.history + [Applied(c)];
            Appliers(history) == Finished(s.acquired, Members(Appliers(history)))
  {
    var done := Members(Appliers(s.history));
    var history := s.history + [Event<V>.Applied(c)];
    assert history[..|s.history|] == s.history;
    assert Appliers(history) == Appliers(s.history) + [c];
    assert Members(Appliers(history)) == done + {c};
    assert s.lock == Some(Lease(c, s.calls[c].until));
    var last := |s.acquired| - 1;
    assert c !in s.acquired[..last];
    FinishedAppends(s.acquired, done, c);
  }

  lemma StepStaysFaithful<V(!new)>(f: Mutation<V>, t: Timing, s: Room<V>, l: Label<V>)
    requires LeaseOwned(s) && Faithful(s) && Timely(s, l)
    ensures Faithful(Step(f, t, s, l))
  {
    var s' := Step(f, t, s, l);
    forall c | InLease(s', c) && s'.calls[c].Loaded?
      ensures s'.stored == Some(s'.calls[c].seen)
    {
      if InLease(s, c) {
        assert s.lock == Some(Lease(c, s.calls[c].until));
      }
    }
  }

  /** What a compare-and-set at the write would check: the stored state is still the one read. */
  predicate UpToDate<V(==)>(s: Room<V>, l: Label<V>) {
    l.Commit? && l.call in s.calls && s.calls[l.call].Loaded? ==> s.stored == Some(s.calls[l.call].seen)
  }

  ghost predicate SerialSoFar<V>(f: Mutation<V>, initial: Option<V>, s: Room<V>) {
    s.stored == Serial(f, initial, s.history)
  }

  lemma TimelyStepIsUpToDate<V(!new)>(s: Room<V>, l: Label<V>)
    requires Faithful(s) && Timely(s, l)
    ensures UpToDate(s, l)
  {
  }

  /** The event a step puts on record, if any; an up-to-date step changes the state just as that event does. */
  lemma StepEffect<V>(f: Mutation<V>, t: Timing, s: Room<V>, l: Label<V>) returns (e: Option<Event<V>>)
    requires UpToDate(s, l)
    ensures var s' := Step(f, t, s, l);
            if e.None? then s'.history == s.history && s'.stored == s.stored
            else s'.history == s.history + [e.value] && s'.stored == Effect(f, s.stored, e.value)
  {
    var s' := Step(f, t, s, l);
    e := if |s'.history| == |s.history| then None else Some(s'.history[|s.history|]);
  }

  lemma UpToDateStep<V>(f: Mutation<V>, t: Timing, initial: Option<V>, s: Room<V>, l: Label<V>)
    requires SerialSoFar(f, initial, s) && UpToDate(s, l)
    ensures SerialSoFar(f, initial, Step(f, t, s, l))
  {
    hide Step, UpToDate, Serial, Effect;
    var e := StepEffect(f, t, s, l);
    if e.Some? {
      SerialSnoc(f, initial, s.history, e.value);
    }
  }

  lemma StepExtendsHistory<V(!new)>(f: Mutation<V>, t: Timing, initial: Option<V>, s: Room<V>, l: Label<V>)
    requires s.stored == Serial(f, initial, s.history) && Faithful(s) && Timely(s, l)
    ensures var s' := Step(f, t, s, l); s'.stored == Serial(f, initial, s'.history)
  {
    hide Serial, Step, Faithful, Timely, UpToDate;
    TimelyStepIsUpToDate(s, l);
    UpToDateStep(f, t, initial, s, l);
  }

  /** The step writes, or ends the action of a room without state. */
  predicate TakesEffect<V>(s: Room<V>, l: Label<V>) {
    || (l.Commit? && l.call in s.calls && s.calls[l.call].Loaded?)
    || (l.Load? && l.call in s.calls && s.calls[l.call].Holding? && s.stored.None?)
  }

  /**
   * What a step does to the order of things: it records an effect of a call,
   * which leaves the section, or another event; or it puts a call into the
   * section; nobody else moves in.
   */
  ghost predicate Moves<V(!new)>(s: Room<V>, l: Label<V>, s': Room<V>, e: Option<Event<V>>, entered: Option<Token>) {
    && s'.history == (if e.Some? then s.history + [e.value] else s.history)
    && s'.acquired == (if entered.Some? then s.acquired + [entered.value] else s.acquired)
    && (TakesEffect(s, l) <==> e.Some? && e.value.Applied?)
    && (TakesEffect(s, l) ==> e == Some(Applied(l.call)) && InSection(s, l.call) && !InSection(s', l.call))
    && (entered.Some? ==> e.None? && entered.value in s.calls && s.calls[entered.value].Trying?)
    && (forall c: Token :: InSection(s', c) ==> InSection(s, c) || entered == Some(c))
  }

  lemma StepMoves<V(!new)>(f: Mutation<V>, t: Timing, s: Room<V>, l: Label<V>)
    returns (e: Option<Event<V>>, entered: Option<Token>)
    ensures Moves(s, l, Step(f, t, s, l), e, entered)
  {
    var s' := Step(f, t, s, l);
    e := if |s'.history| == |s.history| then None else Some(s'.history[|s.history|]);
    entered := if |s'.acquired| == |s.acquired| then None else Some(s'.acquired[|s.acquired|]);
  }

  lemma EffectStaysInOrder<V(!new)>(s: Room<V>, l: Label<V>, s': Room<V>, c: Token)
    requires LeaseOwned(s) && Fair(s) && InOrder(s) && InLease(s, c) && Moves(s, l, s', Some(Applied(c)), None)
    ensures InOrder(s')
  {
    OrderAfterApply(s, c);
    AppliersSnoc(s.history, Applied(c));
    LeaseIsAcquired(s, c);
    hide Finished, Appliers, LeaseOwned, Fair;
  }

  lemma TimelyEffect<V(!new)>(s: Room<V>, l: Label<V>)
    requires Timely(s, l) && TakesEffect(s, l)
    ensures InLease(s, l.call)
  {
  }

  lemma LeaseIsAcquired<V(!new)>(s: Room<V>, c: Token)
    requires LeaseOwned(s) && Fair(s) && InLease(s, c)
    ensures c in s.acquired
  {
    assert s.lock == Some(Lease(c, s.calls[c].until));
  }

  lemma AppliersSnoc<V>(history: seq<Event<V>>, e: Event<V>)
    ensures Appliers(history + [e]) == if e.Applied? then Appliers(history) + [e.call] else Appliers(history)
  {
    assert (history + [e])[..|history|] == history;
  }

  lemma StepStaysInOrder<V(!new)>(f: Mutation<V>, t: Timing, s: Room<V>, l: Label<V>)
    requires LeaseOwned(s) && Fair(s) && InOrder(s) && Timely(s, l)
    ensures InOrder(Step(f, t, s, l))
  {
    hide Step, Timely, Finished, Appliers, LeaseOwned;
    var s' := Step(f, t, s, l);
    var e, entered := StepMoves(f, t, s, l);
    if e.Some? && e.value.Applied? {
      TimelyEffect(s, l);
      EffectStaysInOrder(s, l, s', e.value.call);
    } else if e.Some? {
      AppliersSnoc(s.history, e.value);
    } else if entered.Some? {
      OrderAfterAcquire(s, entered.value);
    }
  }

  /**
   * If every read and write falls inside its call's lease, any interleaving
   * leaves what the calls leave one by one, in the order they took the lock.
   */
  lemma {:induction false} RunLinear<V(!new)>(
      f: Mutation<V>, t: Timing, initial: Option<V>, s: Room<V>, labels: seq<Label<V>>)
    requires LeaseOwned(s) && Fair(s) && Linear(f, initial, s) && TimelyRun(f, t, s, labels)
    ensures Linear(f, initial, Run(f, t, s, labels))
    decreases |labels|
  {
    if labels != [] {
      StepKeepsLock(f, t, s, labels[0]);
      StepStaysFaithful(f, t, s, labels[0]);
      StepExtendsHistory(f, t, initial, s, labels[0]);
      StepStaysInOrder(f, t, s, labels[0]);
      RunLinear(f, t, initial, Step(f, t, s, labels[0]), labels[1..]);
    }
  }

  lemma TimelyRunIsSerial<V(!new)>(
      f: Mutation<V>, t: Timing, now: int, initial: Option<V>, labels: seq<Label<V>>)
    requires TimelyRun(f, t, Fresh(now, initial), labels)
    ensures var s := Run(f, t, Fresh(now, initial), labels);
            && s.stored == Serial(f, initial, s.history)
            && Appliers(s.history) == Finished(s.acquired, Members(Appliers(s.history)))
  {
    RunLinear(f, t, initial, Fresh(now, initial), labels);
  }

  // ---------------------------------------------------------------------------
  // Where it stops: a write whose read is out of date.

  /**
   * A write is right for every mutation exactly when the state it overwrites is
   * still the one it read, which a compare-and-set at the write would check.
   */
  lemma CommitIsRightIff<V(!new)>(t: Timing, s: Room<V>, c: Token)
    requires c in s.calls && s.calls[c].Loaded?
    ensures (forall f: Mutation<V> :: Step(f, t, s, Commit(c)).stored == Apply(f, c, s.stored))
            <==> s.stored == Some(s.calls[c].seen)
  {
    if s.stored != Some(s.calls[c].seen) {
      var keep: Mutation<V> := (_, v) => Some(v);
      assert Step(keep, t, s, Commit(c)).stored != Apply(keep, c, s.stored);
    }
  }

  /** The state after the first so many steps. */
  function Prefix<V>(f: Mutation<V>, t: Timing, s: Room<V>, labels: seq<Label<V>>, n: nat): Room<V>
    requires n <= |labels|
  {
    Run(f, t, s, labels[..n])
  }

  ghost predicate UpToDateRun<V(!new)>(f: Mutation<V>, t: Timing, s: Room<V>, labels: seq<Label<V>>) {
    forall n :: 0 <= n < |labels| ==> UpToDate(Prefix(f, t, s, labels, n), labels[n])
  }

  ghost predicate SerialThroughout<V(!new)>(
      f: Mutation<V>, t: Timing, initial: Option<V>, s: Room<V>, labels: seq<Label<V>>) {
    forall n :: 0 <= n <= |labels| ==> SerialSoFar(f, initial, Prefix(f, t, s, labels, n))
  }

  lemma PrefixStep<V>(f: Mutation<V>, t: Timing, s: Room<V>, labels: seq<Label<V>>, n: nat)
    requires n < |labels|
    ensures Prefix(f, t, s, labels, n + 1) == Step(f, t, Prefix(f, t, s, labels, n), labels[n])
  {
    assert labels[..n + 1] == labels[..n] + [labels[n]];
    RunAppend(f, t, s, labels[..n], [labels[n]]);
    var r := Prefix(f, t, s, labels, n);
    assert Run(f, t, r, [labels[n]]) == Step(f, t, r, labels[n]);
  }

  lemma {:induction false} UpToDateIsSerial<V(!new)>(
      f: Mutation<V>, t: Timing, now: int, initial: Option<V>, labels: seq<Label<V>>, n: nat)
    requires UpToDateRun(f, t, Fresh(now, initial), labels) && n <= |labels|
    ensures SerialSoFar(f, initial, Prefix(f, t, Fresh(now, initial), labels, n))
    decreases n
  {
    if n > 0 {
      UpToDateIsSerial(f, t, now, initial, labels, n - 1);
      PrefixStep(f, t, Fresh(now, initial), labels, n - 1);
      UpToDateStep(f, t, initial, Prefix(f, t, Fresh(now, initial), labels, n - 1), labels[n - 1]);
    }
  }

  predicate Past<V>(s: Room<V>, c: Token) {
    c in s.calls && (s.calls[c].Closing? || s.calls[c].Done?)
  }

  lemma {:induction false} PastForever<V>(f: Mutation<V>, t: Timing, s: Room<V>, labels: seq<Label<V>>, c: Token)
    requires Past(s, c)
    ensures Past(Run(f, t, s, labels), c)
    decreases |labels|
  {
    if labels != [] {
      PastForever(f, t, Step(f, t, s, labels[0]), labels[1..], c);
    }
  }

  /** The same mutation but for one call, which writes back what it read. */
  ghost function WritesBack<V>(f: Mutation<V>, c: Token): Mutation<V> {
    (d: Token, v: V) => if d == c then Some(v) else f(d, v)
  }

  /** Before the call commits, nobody can tell. */
  lemma {:induction false} SameBeforeCommit<V>(f: Mutation<V>, t: Timing, s: Room<V>, labels: seq<Label<V>>, c: Token)
    requires var r := Run(f, t, s, labels); c in r.calls && r.calls[c].Loaded?
    ensures Run(WritesBack(f, c), t, s, labels) == Run(f, t, s, labels)
    decreases |labels|
  {
    if labels != [] {
      var next := Step(f, t, s, labels[0]);
      if labels[0] == Commit(c) && c in s.calls && s.calls[c].Loaded? {
        PastForever(f, t, next, labels[1..], c);
      } else {
        assert Step(WritesBack(f, c), t, s, labels[0]) == next;
        SameBeforeCommit(f, t, next, labels[1..], c);
      }
    }
  }

  /** A write out of date shows: with the call writing back what it read, the run is not serial. */
  lemma StaleWriteShows<V(!new)>(
      f: Mutation<V>, t: Timing, now: int, initial: Option<V>, labels: seq<Label<V>>, n: nat)
    requires n < |labels| && !UpToDate(Prefix(f, t, Fresh(now, initial), labels, n), labels[n])
    ensures !SerialThroughout(WritesBack(f, labels[n].call), t, initial, Fresh(now, initial), labels)
  {
    var c := labels[n].call;
    var g := WritesBack(f, c);
    var s := Fresh(now, initial);
    SameBeforeCommit(f, t, s, labels[..n], c);
    var r := Prefix(g, t, s, labels, n);
    PrefixStep(g, t, s, labels, n);
    SerialSnoc(g, initial, r.history, Applied(c));
    if SerialSoFar(g, initial, r) {
      var r' := Step(g, t, r, labels[n]);
      assert r'.stored == Some(r.calls[c].seen) && r'.history == r.history + [Applied(c)];
      assert Serial(g, initial, r'.history) == r.stored;
      assert !SerialSoFar(g, initial, Prefix(g, t, s, labels, n + 1));
    }
  }

  /**
   * A schedule is serial at every moment for every mutation exactly when, for
   * every mutation, each of its writes finds the state it read: the condition a
   * compare-and-set at the write would check, and all that the lock is for.
   */
  lemma ScheduleIsSerialIff<V(!new)>(t: Timing, now: int, initial: Option<V>, labels: seq<Label<V>>)
    ensures (forall f: Mutation<V> :: SerialThroughout(f, t, initial, Fresh(now, initial), labels))
            <==> (forall f: Mutation<V> :: UpToDateRun(f, t, Fresh(now, initial), labels))
  {
    var s := Fresh(now, initial);
    if forall f: Mutation<V> :: UpToDateRun(f, t, s, labels) {
      forall f: Mutation<V>, n | 0 <= n <= |labels|
        ensures SerialSoFar(f, initial, Prefix(f, t, s, labels, n))
      {
        UpToDateIsSerial(f, t, now, initial, labels, n);
      }
    } else {
      var f: Mutation<V> :| !UpToDateRun(f, t, s, labels);
      var n :| 0 <= n < |labels| && !UpToDate(Prefix(f, t, s, labels, n), labels[n]);
      StaleWriteShows(f, t, now, initial, labels, n);
    }
  }

  lemma {:induction false} TimelyStaysUpToDate<V(!new)>(
      f: Mutation<V>, t: Timing, initial: Option<V>, s: Room<V>, labels: seq<Label<V>>)
    requires LeaseOwned(s) && Fair(s) && Linear(f, initial, s) && TimelyRun(f, t, s, labels)
    ensures UpToDateRun(f, t, s, labels)
    decreases |labels|
  {
    if labels != [] {
      var next := Step(f, t, s, labels[0]);
      TimelyStepIsUpToDate(s, labels[0]);
      StepKeepsLock(f, t, s, labels[0]);
      RunLinear(f, t, initial, s, [labels[0]]);
      assert Run(f, t, s, [labels[0]]) == next;
      TimelyStaysUpToDate(f, t, initial, next, labels[1..]);
      hide Step, LeaseOwned, Fair, Linear, TimelyRun, UpToDate;
      forall n | 0 <= n < |labels|
        ensures UpToDate(Prefix(f, t, s, labels, n), labels[n])
      {
        if n > 0 {
          assert labels[..n][1..] == labels[1..][..n - 1];
          assert Prefix(f, t, s, labels, n) == Prefix(f, t, next, labels[1..], n - 1);
        }
      }
    }
  }

  /** Reads and writes inside leases, with no removal under a reader, are enough. */
  lemma TimelyRunIsUpToDate<V(!new)>(
      f: Mutation<V>, t: Timing, now: int, initial: Option<V>, labels: seq<Label<V>>)
    requires TimelyRun(f, t, Fresh(now, initial), labels)
    ensures UpToDateRun(f, t, Fresh(now, initial), labels)
  {
    TimelyStaysUpToDate(f, t, initial, Fresh(now, initial), labels);
  }

  const OVERRUN: Timing := Timing(5000, 2000)

  /** A call that reads and then outlives its five second lease. */
  const STALLED: seq<Label<int>> := [Start(1), TryLock(1), Load(1), Tick(5000)]

  const OVERTAKEN: seq<Label<int>> := [Start(2), TryLock(2), Load(2), Commit(2)]

  ghost const INCREMENT: Mutation<int> := (_, v) => Some(v + 1)

  lemma StalledCallLosesLock()
    ensures Run(INCREMENT, OVERRUN, Fresh(0, Some(0)), STALLED)
            == Room(5000, Some(Lease(1, 5000)), Some(0), map[1 := Loaded(5000, 0)], [1], [])
  {
  }

  lemma SecondCallCommits()
    ensures
      var s := Room(5000, Some(Lease(1, 5000)), Some(0), map[1 := Loaded(5000, 0)], [1], []);
      Run(INCREMENT, OVERRUN, s, OVERTAKEN)
      == Room(5000, Some(Lease(2, 10000)), Some(1), map[1 := Loaded(5000, 0), 2 := Closing], [1, 2], [Applied(2)])
  {
  }

  lemma StalledCallCommits()
    ensures
      var s := Room(5000, Some(Lease(2, 10000)), Some(1), map[1 := Loaded(5000, 0), 2 := Closing], [1, 2], [Applied(2)]);
      var s' := Run(INCREMENT, OVERRUN, s, [Commit(1)]);
      s'.stored == Some(1) && s'.history == [Applied(2), Applied(1)]
  {
  }

  /** Two increments, the first writing after its lease: one is lost. */
  lemma OverrunLosesUpdate()
    ensures var s := Run(INCREMENT, OVERRUN, Fresh(0, Some(0)), STALLED + OVERTAKEN + [Commit(1)]);
            s.stored == Some(1) && Serial(INCREMENT, Some(0), s.history) == Some(2)
  {
    hide Run, Step, Fresh, Serial;
    StalledCallLosesLock();
    SecondCallCommits();
    StalledCallCommits();
    RunAppend(INCREMENT, OVERRUN, Fresh(0, Some(0)), STALLED + OVERTAKEN, [Commit(1)]);
    RunAppend(INCREMENT, OVERRUN, Fresh(0, Some(0)), STALLED, OVERTAKEN);
    SerialOfNothing(INCREMENT, Some(0));
    SerialSnoc(INCREMENT, Some(0), [], Applied(2));
    SerialSnoc(INCREMENT, Some(0), [Applied(2)], Applied(1));
    assert [] + [Event<int>.Applied(2)] == [Applied(2)];
    assert [Event<int>.Applied(2)] + [Applied(1)] == [Applied(2), Applied(1)];
  }

  lemma SerialOfNothing<V>(f: Mutation<V>, stored: Option<V>)
    ensures Serial(f, stored, []) == stored
  {
  }

  const READING: seq<Label<int>> := [Start(1), TryLock(1), Load(1)]

  lemma ReaderHoldsLock()
    ensures Run(INCREMENT, OVERRUN, Fresh(0, Some(0)), READING)
            == Room(0, Some(Lease(1, 5000)), Some(0), map[1 := Loaded(5000, 0)], [1], [])
  {
  }

  lemma WriteAfterRemove()
    ensures
      var s := Room(0, Some(Lease(1, 5000)), Some(0), map[1 := Loaded(5000, 0)], [1], []);
      Run(INCREMENT, OVERRUN, s, [Remove, Commit(1)])
      == Room(0, Some(Lease(1, 5000)), Some(1), map[1 := Closing], [1], [Removed, Applied(1)])
  {
  }

  /** Room state removed between a read and its write comes back. */
  lemma RemovedStateReturns()
    ensures var s := Run(INCREMENT, OVERRUN, Fresh(0, Some(0)), READING + [Remove, Commit(1)]);
            s.stored == Some(1) && Serial(INCREMENT, Some(0), s.history) == None
  {
    hide Run, Step, Fresh, Serial;
    ReaderHoldsLock();
    WriteAfterRemove();
    RunAppend(INCREMENT, OVERRUN, Fresh(0, Some(0)), READING, [Remove, Commit(1)]);
    SerialSnoc(INCREMENT, Some(0), [], Removed);
    SerialSnoc(INCREMENT, Some(0), [Removed], Applied(1));
    assert [Removed] + [Event<int>.Applied(1)] == [Removed, Applied(1)] && [] + [Event<int>.Removed] == [Removed];
  }
}
