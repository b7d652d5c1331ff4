/**
 * The deadline scheduler: one slot per room, each schedule a new generation,
 * and an action that runs only if its generation still holds the slot.
 *
 * `schedule` is two steps, around the call to the executor, so that an executor
 * firing inside it (and actions scheduling again) is one of the interleavings.
 * The executor is free to fire any task it was given, at any time, any number
 * of times, cancelled or not.
 */
module DeadlineScheduler {
  import opened Wrappers

  type RoomId(==, !new)

  /** A generation also names the executor handle of its task. */
  datatype Gen = Gen(n: nat)

  datatype Slot = Slot(roundNumber: int, generation: Gen, timeout: Option<Gen>)

  datatype Task = Task(roomId: RoomId, roundNumber: int)

  /** The rest records tasks given to the executor, handles it was told to drop, actions run, and schedule calls not returned yet. */
  datatype State = State(
    slots: map<RoomId, Slot>,
    generations: nat,
    tasks: map<Gen, Task>,
    cancelled: set<Gen>,
    ran: seq<Gen>,
    open: set<Gen>
  )

  datatype Label =
    | ScheduleBegin(roomId: RoomId, roundNumber: int)
    | ScheduleEnd(generation: Gen)
    | Cancel(roomId: RoomId, roundNumber: int)
    | CancelRoom(roomId: RoomId)
    | Stop
    | Fire(generation: Gen)

  const INITIAL := State(map[], 0, map[], {}, [], {})

  function HandleOf(slot: Slot): set<Gen> {
    if slot.timeout.Some? then {slot.timeout.value} else {}
  }

  /** What cancelling a room's slot, if it has one, tells the executor to drop. */
  function HandleIn(slots: map<RoomId, Slot>, roomId: RoomId): set<Gen> {
    if roomId in slots then HandleOf(slots[roomId]) else {}
  }

  function AllHandles(slots: map<RoomId, Slot>): set<Gen> {
    set roomId | roomId in slots && slots[roomId].timeout.Some? :: slots[roomId].timeout.value
  }

  predicate Holds(slots: map<RoomId, Slot>, roomId: RoomId, roundNumber: int, generation: Gen) {
    roomId in slots && slots[roomId].roundNumber == roundNumber && slots[roomId].generation == generation
  }

  function Attach(slots: map<RoomId, Slot>, roomId: RoomId, generation: Gen): map<RoomId, Slot> {
    if roomId in slots && slots[roomId].generation == generation then
      slots[roomId := slots[roomId].(timeout := Some(generation))]
    else slots
  }

  function Step(s: State, l: Label): State {
    match l
    case ScheduleBegin(roomId, roundNumber) =>
      if roundNumber < 1 then s
      else
        var generation := Gen(s.generations + 1);
        State(s.slots[roomId := Slot(roundNumber, generation, None)], s.generations + 1,
              s.tasks[generation := Task(roomId, roundNumber)], s.cancelled + HandleIn(s.slots, roomId), s.ran,
              s.open + {generation})
    case ScheduleEnd(generation) =>
      if generation !in s.tasks then s
      else s.(slots := Attach(s.slots, s.tasks[generation].roomId, generation), open := s.open - {generation})
    case Cancel(roomId, roundNumber) =>
      if roomId in s.slots && s.slots[roomId].roundNumber == roundNumber then Dropped(s, roomId) else s
    case CancelRoom(roomId) => if roomId in s.slots then Dropped(s, roomId) else s
    case Stop => s.(slots := map[], cancelled := s.cancelled + AllHandles(s.slots))
    case Fire(generation) =>
      if generation in s.tasks && Holds(s.slots, s.tasks[generation].roomId, s.tasks[generation].roundNumber, generation)
      then s.(slots := s.slots - {s.tasks[generation].roomId}, ran := s.ran + [generation])
      else s
  }

  function Dropped(s: State, roomId: RoomId): State {
    s.(slots := s.slots - {roomId}, cancelled := s.cancelled + HandleIn(s.slots, roomId))
  }

  function Run(s: State, labels: seq<Label>): State
    decreases |labels|
  {
    if labels == [] then s else Run(Step(s, labels[0]), labels[1..])
  }

  predicate Current(s: State, generation: Gen) {
    generation in s.tasks && Holds(s.slots, s.tasks[generation].roomId, s.tasks[generation].roundNumber, generation)
  }

  // ---------------------------------------------------------------------------
  // Invariant.

  ghost predicate Inv(s: State) {
    && (forall g :: g in s.tasks <==> 1 <= g.n <= s.generations)
    && (forall roomId :: roomId in s.slots ==>
          var slot := s.slots[roomId];
          && slot.generation in s.tasks && s.tasks[slot.generation] == Task(roomId, slot.roundNumber)
          && slot.generation !in s.ran && slot.generation !in s.cancelled
          && (slot.timeout.Some? ==> slot.timeout.value == slot.generation))
    && (forall g :: g in s.ran || g in s.cancelled ==> g in s.tasks)
    && (forall g :: g in s.ran ==> g !in s.cancelled)
    && (forall i, j :: 0 <= i < j < |s.ran| ==> s.ran[i] != s.ran[j])
  }

  lemma StepInv(s: State, l: Label)
    requires Inv(s)
    ensures Inv(Step(s, l))
  {
    match l
    case ScheduleBegin(roomId, roundNumber) => BeginInv(s, roomId, roundNumber);
    case Stop => StopInv(s);
    case Fire(g) => FireInv(s, g);
    case _ =>
  }

  lemma BeginInv(s: State, roomId: RoomId, roundNumber: int)
    requires Inv(s)
    ensures Inv(Step(s, ScheduleBegin(roomId, roundNumber)))
  {
  }

  lemma StopInv(s: State)
    requires Inv(s)
    ensures Inv(Step(s, Stop))
  {
    forall g | g in AllHandles(s.slots)
      ensures g in s.tasks && g !in s.ran
    {
      var roomId :| roomId in s.slots && s.slots[roomId].timeout.Some? && s.slots[roomId].timeout.value == g;
    }
  }

  lemma FireInv(s: State, g: Gen)
    requires Inv(s)
    ensures Inv(Step(s, Fire(g)))
  {
    if Current(s, g) {
      var roomId := s.tasks[g].roomId;
      assert g !in s.ran;
    }
  }

  lemma {:induction false} RunInv(s: State, labels: seq<Label>)
    requires Inv(s)
    ensures Inv(Run(s, labels))
    decreases |labels|
  {
    hide Inv, Step;
    if labels != [] {
      StepInv(s, labels[0]);
      RunInv(Step(s, labels[0]), labels[1..]);
    }
  }

  // ---------------------------------------------------------------------------
  // Every interleaving.

  /** Each action runs at most once, and a handle the executor was told to drop is never one that ran or holds a slot. */
  lemma RunsAtMostOnce(labels: seq<Label>)
    ensures var s := Run(INITIAL, labels);
            && (forall i, j :: 0 <= i < j < |s.ran| ==> s.ran[i] != s.ran[j])
            && (forall g :: g in s.cancelled ==> g !in s.ran && !Current(s, g))
  {
    RunInv(INITIAL, labels);
  }

  lemma StaleStep(s: State, l: Label, g: Gen)
    requires Inv(s) && g in s.tasks && !Current(s, g)
    ensures g in Step(s, l).tasks && !Current(Step(s, l), g)
    ensures g in Step(s, l).ran <==> g in s.ran
  {
    if l.ScheduleEnd? && l.generation in s.tasks {
      EndKeepsHolders(s, l.generation, g);
    }
  }

  lemma EndKeepsHolders(s: State, h: Gen, g: Gen)
    requires Inv(s) && g in s.tasks && h in s.tasks
    ensures Current(Step(s, ScheduleEnd(h)), g) <==> Current(s, g)
  {
  }

  /** A generation that has lost its slot never gets it back, and its action never runs. */
  lemma {:induction false} StaleForever(s: State, labels: seq<Label>, g: Gen)
    requires Inv(s) && g in s.tasks && !Current(s, g)
    ensures !Current(Run(s, labels), g)
    ensures g in Run(s, labels).ran <==> g in s.ran
    decreases |labels|
  {
    hide Inv, Step, Current;
    if labels != [] {
      StaleStep(s, labels[0], g);
      StepInv(s, labels[0]);
      StaleForever(Step(s, labels[0]), labels[1..], g);
    }
  }

  lemma {:induction false} RunAppend(s: State, first: seq<Label>, rest: seq<Label>)
    ensures Run(s, first + rest) == Run(Run(s, first), rest)
    decreases |first|
  {
    hide Step;
    if first == [] {
      assert first + rest == rest;
    } else {
      assert (first + rest)[1..] == first[1..] + rest;
      RunAppend(Step(s, first[0]), first[1..], rest);
    }
  }

  /** What the first so many steps have run. */
  function RanBy(labels: seq<Label>, n: nat): seq<Gen>
    requires n <= |labels|
  {
    Run(INITIAL, labels[..n]).ran
  }

  /** The moment a task is fired while its generation holds the room's slot. */
  predicate FiresAt(labels: seq<Label>, i: nat, g: Gen)
    requires i < |labels|
  {
    labels[i] == Fire(g) && Current(Run(INITIAL, labels[..i]), g)
  }

  lemma RunSnoc(labels: seq<Label>, n: nat)
    requires n < |labels|
    ensures Run(INITIAL, labels[..n + 1]) == Step(Run(INITIAL, labels[..n]), labels[n])
  {
    assert labels[..n + 1] == labels[..n] + [labels[n]];
    RunAppend(INITIAL, labels[..n], [labels[n]]);
    var s := Run(INITIAL, labels[..n]);
    assert Run(s, [labels[n]]) == Step(s, labels[n]);
  }

  lemma {:induction false} RanMeansFired(labels: seq<Label>, n: nat, g: Gen)
    requires n <= |labels|
    ensures g in RanBy(labels, n) <==> exists i :: 0 <= i < n && FiresAt(labels, i, g)
    decreases n
  {
    if n > 0 {
      RanMeansFired(labels, n - 1, g);
      RunSnoc(labels, n - 1);
      var s := Run(INITIAL, labels[..n - 1]);
      StepRan(s, labels[n - 1], g);
      hide Step, Current, Run;
      if FiresAt(labels, n - 1, g) {
        assert g in RanBy(labels, n);
      }
    }
  }

  lemma StepRan(s: State, l: Label, g: Gen)
    ensures g in Step(s, l).ran <==> g in s.ran || (l == Fire(g) && Current(s, g))
  {
  }

  /**
   * In every run an action has run if and only if there was a moment, and then
   * just one, at which its task was fired while its generation held the slot.
   */
  lemma RunsOnlyIfCurrent(labels: seq<Label>, g: Gen)
    ensures g in Run(INITIAL, labels).ran <==> exists i :: 0 <= i < |labels| && FiresAt(labels, i, g)
    ensures forall i, j :: 0 <= i < |labels| && 0 <= j < |labels| && FiresAt(labels, i, g) && FiresAt(labels, j, g) ==> i == j
  {
    RanMeansFired(labels, |labels|, g);
    assert labels[..|labels|] == labels;
    forall i, j | 0 <= i < j < |labels| && FiresAt(labels, i, g) && FiresAt(labels, j, g)
      ensures false
    {
      FiredOnce(labels, i, j, g);
    }
  }

  /** Once fired, a generation has lost its slot for good. */
  lemma FiredOnce(labels: seq<Label>, i: nat, j: nat, g: Gen)
    requires i < j < |labels| && FiresAt(labels, i, g)
    ensures !FiresAt(labels, j, g)
  {
    RunInv(INITIAL, labels[..i]);
    RunInv(INITIAL, labels[..i + 1]);
    RunSnoc(labels, i);
    var s := Run(INITIAL, labels[..i + 1]);
    assert g in s.tasks && !Current(s, g);
    assert labels[..j] == labels[..i + 1] + labels[i + 1..j];
    RunAppend(INITIAL, labels[..i + 1], labels[i + 1..j]);
    StaleForever(s, labels[i + 1..j], g);
  }

  /** Nothing scheduled for a room before its cancelRoom, or for any room before stop, runs afterwards. */
  lemma CancelledNeverRuns(before: seq<Label>, l: Label, after: seq<Label>, g: Gen)
    requires l.CancelRoom? || l.Stop?
    requires g in Run(INITIAL, before).tasks
    requires l.CancelRoom? ==> Run(INITIAL, before).tasks[g].roomId == l.roomId
    ensures g in Run(INITIAL, before + [l] + after).ran <==> g in Run(INITIAL, before).ran
  {
    var s := Run(INITIAL, before);
    RunInv(INITIAL, before);
    StepInv(s, l);
    RunAppend(INITIAL, before + [l], after);
    RunAppend(INITIAL, before, [l]);
    assert Run(s, [l]) == Step(s, l);
    StaleForever(Step(s, l), after, g);
  }

  /** Scheduling a room again retires the action scheduled before, even while that call is still under way. */
  lemma RescheduleRetires(before: seq<Label>, roomId: RoomId, roundNumber: int, after: seq<Label>, g: Gen)
    requires roundNumber >= 1
    requires g in Run(INITIAL, before).tasks && Run(INITIAL, before).tasks[g].roomId == roomId
    ensures g in Run(INITIAL, before + [ScheduleBegin(roomId, roundNumber)] + after).ran <==> g in Run(INITIAL, before).ran
  {
    var s := Run(INITIAL, before);
    var l := ScheduleBegin(roomId, roundNumber);
    RunInv(INITIAL, before);
    StepInv(s, l);
    RunAppend(INITIAL, before + [l], after);
    RunAppend(INITIAL, before, [l]);
    assert Run(s, [l]) == Step(s, l);
    StaleForever(Step(s, l), after, g);
  }

  /** An overdue action fired by the executor before `schedule` returns does run, and its slot is not taken again. */
  lemma InlineActionRuns(before: seq<Label>, roomId: RoomId, roundNumber: int)
    requires roundNumber >= 1
    ensures var s := Run(INITIAL, before); var g := Gen(s.generations + 1);
            var s' := Step(Step(Step(s, ScheduleBegin(roomId, roundNumber)), Fire(g)), ScheduleEnd(g));
            s'.ran == s.ran + [g] && roomId !in s'.slots
  {
  }

  /** A schedule call that has returned left its handle in the slot, if the slot is still its own. */
  ghost predicate HandlesKept(s: State) {
    forall roomId :: roomId in s.slots && s.slots[roomId].timeout.None? ==> s.slots[roomId].generation in s.open
  }

  lemma StepHandlesKept(s: State, l: Label)
    requires Inv(s) && HandlesKept(s)
    ensures HandlesKept(Step(s, l))
  {
  }

  lemma {:induction false} RunHandlesKept(s: State, labels: seq<Label>)
    requires Inv(s) && HandlesKept(s)
    ensures HandlesKept(Run(s, labels))
    decreases |labels|
  {
    hide Inv, Step, HandlesKept;
    if labels != [] {
      StepInv(s, labels[0]);
      StepHandlesKept(s, labels[0]);
      RunHandlesKept(Step(s, labels[0]), labels[1..]);
    }
  }

  /** A task that loses its slot without running is dropped by the executor, unless its schedule call had not returned. */
  lemma NoTimerLeaks(labels: seq<Label>, l: Label, g: Gen)
    requires Current(Run(INITIAL, labels), g) && !Current(Step(Run(INITIAL, labels), l), g)
    ensures var s := Run(INITIAL, labels); var s' := Step(s, l);
            g in s'.ran || g in s'.cancelled || g in s.open
  {
    RunInv(INITIAL, labels);
    RunHandlesKept(INITIAL, labels);
    var s := Run(INITIAL, labels);
    hide Run;
    if l.ScheduleEnd? && l.generation in s.tasks {
      EndKeepsHolders(s, l.generation, g);
    }
  }

  // ---------------------------------------------------------------------------
  // When an action runs, told from the calls alone.

  /** The calls that end a task's claim: its room scheduled again or cancelled, its round cancelled, or the scheduler stopped. */
  predicate Retires(l: Label, task: Task) {
    match l
    case ScheduleBegin(roomId, roundNumber) => roomId == task.roomId && roundNumber >= 1
    case Cancel(roomId, roundNumber) => roomId == task.roomId && roundNumber == task.roundNumber
    case CancelRoom(roomId) => roomId == task.roomId
    case Stop => true
    case _ => false
  }

  /** Calls for other rooms, and a cancel for another round, leave a slot to its task; being fired gives it up. */
  lemma SlotKeptIff(s: State, l: Label, g: Gen)
    requires Inv(s) && Current(s, g)
    ensures g in Step(s, l).tasks && Step(s, l).tasks[g] == s.tasks[g]
    ensures Current(Step(s, l), g) <==> !Retires(l, s.tasks[g]) && l != Fire(g)
  {
    if l.ScheduleEnd? && l.generation in s.tasks {
      EndKeepsHolders(s, l.generation, g);
    }
  }

  /** The executor fires the task, and no call before that has ended its claim. */
  predicate FiredInTime(labels: seq<Label>, i: nat, g: Gen, task: Task) {
    i < |labels| && labels[i] == Fire(g) && forall j | 0 <= j < i :: !Retires(labels[j], task)
  }

  lemma FiredLater(labels: seq<Label>, g: Gen, task: Task)
    requires labels != [] && labels[0] != Fire(g)
    ensures (exists i: nat :: FiredInTime(labels, i, g, task))
            <==> !Retires(labels[0], task) && exists i: nat :: FiredInTime(labels[1..], i, g, task)
  {
    hide Retires;
    if i: nat :| FiredInTime(labels, i, g, task) {
      assert FiredInTime(labels[1..], i - 1, g, task) by {
        forall j | 0 <= j < i - 1 ensures !Retires(labels[1..][j], task) { assert labels[1..][j] == labels[j + 1]; }
      }
    }
    if i: nat :| !Retires(labels[0], task) && FiredInTime(labels[1..], i, g, task) {
      assert FiredInTime(labels, i + 1, g, task) by {
        forall j | 0 <= j < i + 1 ensures !Retires(labels[j], task) {
          assert j > 0 ==> labels[j] == labels[1..][j - 1];
        }
      }
    }
  }

  lemma {:induction false} RunsFromSlot(s: State, labels: seq<Label>, g: Gen)
    requires Inv(s) && Current(s, g)
    ensures g in Run(s, labels).ran <==> exists i: nat :: FiredInTime(labels, i, g, s.tasks[g])
    decreases |labels|
  {
    var task := s.tasks[g];
    assert g !in s.ran;
    if labels != [] {
      var s' := Step(s, labels[0]);
      StepInv(s, labels[0]);
      SlotKeptIff(s, labels[0], g);
      StepRan(s, labels[0], g);
      hide Inv, Step, Current, Retires;
      if labels[0] == Fire(g) {
        assert FiredInTime(labels, 0, g, task);
        StaleForever(s', labels[1..], g);
      } else {
        FiredLater(labels, g, task);
        if Retires(labels[0], task) {
          StaleForever(s', labels[1..], g);
        } else {
          RunsFromSlot(s', labels[1..], g);
        }
      }
    }
  }

  lemma BeginTakesSlot(s: State, roomId: RoomId, roundNumber: int)
    requires Inv(s) && roundNumber >= 1
    ensures var g := Gen(s.generations + 1); var s' := Step(s, ScheduleBegin(roomId, roundNumber));
            && Inv(s') && Current(s', g) && s'.tasks[g] == Task(roomId, roundNumber) && g in s'.open
  {
    BeginInv(s, roomId, roundNumber);
  }

  /**
   * A scheduled action runs if and only if the executor fires it before its room
   * is scheduled again or cancelled, its own round is cancelled or the scheduler
   * is stopped; cancelling another round, or another room, never takes it away.
   */
  lemma RunsIffFiredInTime(before: seq<Label>, roomId: RoomId, roundNumber: int, after: seq<Label>)
    requires roundNumber >= 1
    ensures var g := Gen(Run(INITIAL, before).generations + 1);
            g in Run(INITIAL, before + [ScheduleBegin(roomId, roundNumber)] + after).ran
            <==> exists i: nat :: FiredInTime(after, i, g, Task(roomId, roundNumber))
  {
    var l := ScheduleBegin(roomId, roundNumber);
    RunInv(INITIAL, before);
    BeginTakesSlot(Run(INITIAL, before), roomId, roundNumber);
    RunSplit(before, l, after);
    hide Inv, Step, FiredInTime;
    RunsFromSlot(Step(Run(INITIAL, before), l), after, Gen(Run(INITIAL, before).generations + 1));
  }

  lemma RunSplit(before: seq<Label>, l: Label, after: seq<Label>)
    ensures Run(INITIAL, before + [l] + after) == Run(Step(Run(INITIAL, before), l), after)
  {
    hide Step;
    RunAppend(INITIAL, before + [l], after);
    RunAppend(INITIAL, before, [l]);
    var s := Run(INITIAL, before);
    assert Run(s, [l]) == Step(s, l);
  }

  /** A round that is cancelled does not run its action afterwards, whenever the executor fires. */
  lemma CancelledRoundNeverRuns(before: seq<Label>, roomId: RoomId, roundNumber: int, after: seq<Label>, g: Gen)
    requires g in Run(INITIAL, before).tasks && Run(INITIAL, before).tasks[g] == Task(roomId, roundNumber)
    ensures g in Run(INITIAL, before + [Cancel(roomId, roundNumber)] + after).ran <==> g in Run(INITIAL, before).ran
  {
    var s := Run(INITIAL, before);
    var l := Cancel(roomId, roundNumber);
    RunInv(INITIAL, before);
    RunSplit(before, l, after);
    StepInv(s, l);
    assert g in Step(s, l).tasks && !Current(Step(s, l), g);
    StaleForever(Step(s, l), after, g);
  }

  lemma OpenUntilEnd(s: State, l: Label, g: Gen)
    requires g in s.tasks
    ensures g in Step(s, l).open <==> (g in s.open && l != ScheduleEnd(g)) || (l.ScheduleBegin? && l.roundNumber >= 1 && g == Gen(s.generations + 1))
  {
  }

  /** While nothing ends its claim and the executor does not fire, a task keeps its slot, and its call is open until it returns. */
  lemma {:induction false} WaitsInSlot(s: State, labels: seq<Label>, g: Gen)
    requires Inv(s) && HandlesKept(s) && Current(s, g)
    requires forall l | l in labels :: !Retires(l, s.tasks[g]) && l != Fire(g)
    ensures var s' := Run(s, labels);
            && Inv(s') && HandlesKept(s') && Current(s', g) && s'.tasks[g] == s.tasks[g]
            && (g in s'.open <==> g in s.open && ScheduleEnd(g) !in labels)
    decreases |labels|
  {
    assert g in s.tasks;
    hide Inv, HandlesKept, Current, Step, Retires;
    if labels != [] {
      StepInv(s, labels[0]);
      StepHandlesKept(s, labels[0]);
      SlotKeptIff(s, labels[0], g);
      OpenUntilEnd(s, labels[0], g);
      NewIsNew(s);
      WaitsInSlot(Step(s, labels[0]), labels[1..], g);
    }
  }

  lemma NewIsNew(s: State)
    requires Inv(s)
    ensures Gen(s.generations + 1) !in s.tasks
  {
  }

  lemma RetiringDrops(s: State, l: Label, g: Gen)
    requires Inv(s) && HandlesKept(s) && Current(s, g) && g !in s.open && Retires(l, s.tasks[g])
    ensures g in Step(s, l).cancelled
  {
    var roomId := s.tasks[g].roomId;
    assert s.slots[roomId].timeout == Some(g);
  }

  /** Once its schedule call has returned, the call that ends a waiting task's claim drops its timer. */
  lemma RetiredTimerIsDropped(before: seq<Label>, roomId: RoomId, roundNumber: int, waiting: seq<Label>, l: Label)
    requires roundNumber >= 1 && Retires(l, Task(roomId, roundNumber))
    requires var g := Gen(Run(INITIAL, before).generations + 1);
             && ScheduleEnd(g) in waiting
             && forall w | w in waiting :: !Retires(w, Task(roomId, roundNumber)) && w != Fire(g)
    ensures Gen(Run(INITIAL, before).generations + 1)
            in Run(INITIAL, before + [ScheduleBegin(roomId, roundNumber)] + (waiting + [l])).cancelled
  {
    var begin := ScheduleBegin(roomId, roundNumber);
    var s := Run(INITIAL, before);
    var g := Gen(s.generations + 1);
    RunInv(INITIAL, before);
    RunHandlesKept(INITIAL, before);
    BeginTakesSlot(s, roomId, roundNumber);
    StepHandlesKept(s, begin);
    RunSplit(before, begin, waiting + [l]);
    hide Inv, HandlesKept, Current, Step, Retires;
    var begun := Step(s, begin);
    WaitsInSlot(begun, waiting, g);
    RunAppend(begun, waiting, [l]);
    var s' := Run(begun, waiting);
    assert Run(s', [l]) == Step(s', l);
    RetiringDrops(s', l, g);
  }

  // ---------------------------------------------------------------------------
  // The scheduler in place.

  class InMemoryScheduler {
    var slots: map<RoomId, Slot>
    var generations: nat

    constructor ()
      ensures slots == map[] && generations == 0
    {
      slots, generations := map[], 0;
    }

    /** `schedule` up to the executor: the slot is taken before the task is handed over. */
    method Begin(roomId: RoomId, roundNumber: int) returns (generation: Option<Gen>, dropped: set<Gen>)
      modifies this
      ensures generation == if roundNumber < 1 then None else Some(Gen(old(generations) + 1))
      ensures forall s: State :: s.slots == old(slots) && s.generations == old(generations) ==>
                var s' := Step(s, ScheduleBegin(roomId, roundNumber));
                s'.slots == slots && s'.generations == generations && s'.cancelled == s.cancelled + dropped
    {
      if roundNumber < 1 { return None, {}; }
      generations := generations + 1;
      var next := Gen(generations);
      dropped := HandleIn(slots, roomId);
      slots := slots[roomId := Slot(roundNumber, next, None)];
      return Some(next), dropped;
    }

    /** `schedule` after the executor returned its handle. */
    method End(roomId: RoomId, generation: Gen)
      modifies `slots
      ensures slots == Attach(old(slots), roomId, generation)
    {
      if roomId in slots && slots[roomId].generation == generation {
        slots := slots[roomId := slots[roomId].(timeout := Some(generation))];
      }
    }

    /** The slot and its timer go if they are that round's; else nothing happens. */
    method CancelRound(roomId: RoomId, roundNumber: int) returns (dropped: set<Gen>)
      modifies `slots
      ensures if roomId in old(slots) && old(slots)[roomId].roundNumber == roundNumber
              then slots == old(slots) - {roomId} && dropped == HandleOf(old(slots)[roomId])
              else slots == old(slots) && dropped == {}
      ensures forall s: State :: s.slots == old(slots) ==>
                var s' := Step(s, Cancel(roomId, roundNumber)); s'.slots == slots && s'.cancelled == s.cancelled + dropped
    {
      if roomId !in slots || slots[roomId].roundNumber != roundNumber { return {}; }
      dropped := HandleIn(slots, roomId);
      slots := slots - {roomId};
    }

    method CancelAll(roomId: RoomId) returns (dropped: set<Gen>)
      modifies `slots
      ensures slots == old(slots) - {roomId}
      ensures dropped == if roomId in old(slots) then HandleOf(old(slots)[roomId]) else {}
      ensures forall s: State :: s.slots == old(slots) ==>
                var s' := Step(s, CancelRoom(roomId)); s'.slots == slots && s'.cancelled == s.cancelled + dropped
    {
      if roomId !in slots { return {}; }
      dropped := HandleIn(slots, roomId);
      slots := slots - {roomId};
    }

    method StopAll() returns (dropped: set<Gen>)
      modifies `slots
      ensures slots == map[] && dropped == AllHandles(old(slots))
    {
      dropped := {};
      var rooms := slots.Keys;
      while rooms != {}
        invariant rooms <= slots.Keys
        invariant forall g :: g in dropped <==>
                    exists roomId :: roomId in slots && roomId !in rooms && slots[roomId].timeout == Some(g)
        decreases |rooms|
      {
        var roomId :| roomId in rooms;
        dropped := dropped + HandleIn(slots, roomId);
        rooms := rooms - {roomId};
      }
      slots := map[];
    }

    method RunIfCurrent(task: Task, generation: Gen) returns (runs: bool)
      modifies `slots
      ensures runs == Holds(old(slots), task.roomId, task.roundNumber, generation)
      ensures slots == if runs then old(slots) - {task.roomId} else old(slots)
      ensures forall s: State :: s.slots == old(slots) && generation in s.tasks && s.tasks[generation] == task ==>
                var s' := Step(s, Fire(generation));
                s'.slots == slots && s'.ran == if runs then s.ran + [generation] else s.ran
    {
      runs := Holds(slots, task.roomId, task.roundNumber, generation);
      if runs { slots := slots - {task.roomId}; }
    }
  }
}
