/** Runs of the scheduler: any interleaving of its steps, and what holds after every one. */
module TaskRuns {
  import opened Sequences
  import opened Containers
  import opened Ticks
  import opened Tasks
  import opened TaskInvariants
  import opened TaskSteps

  // ---- Switching, reaping and suspending ----

  ghost predicate Switched(k: Kernel, k': Kernel, l: nat) {
    && k' == k.(gen := k'.gen, current := k'.current, top := l)
    && Consistent(k'.gen) && k'.gen.where == k.gen.where
    && (forall p: Place :: p != Ready(l) ==> k'.gen.At(p) == k.gen.At(p))
    && k.gen.At(Ready(l)) != [] && k'.current == k.gen.At(Ready(l))[0] && k'.gen.At(Ready(l)) == Rotate(k.gen.At(Ready(l)))
    && l <= k.top && (forall t :: t in k.gen.where && k.gen.where[t].Ready? ==> k.gen.where[t].level <= l)
  }

  lemma SwitchMakes(k: Kernel) returns (k': Kernel)
    requires Placed(k) && k.suspended == 0
    ensures k.gen.At(Ready(TopReady(k.gen, k.top))) != [] && k' == SwitchContext(k)
    ensures Switched(k, k', TopReady(k.gen, k.top))
  {
    SomeTaskIsReady(k);
    TopReadyIsHighest(k.gen, k.top);
    var gen := RotatedIsConsistent(k.gen, Ready(TopReady(k.gen, k.top)));
    k' := SwitchContext(k);
    assert k'.gen == gen;
  }

  lemma SwitchedKeepsInv(w: World, k': Kernel, l: nat) returns (w': World)
    requires Inv(w) && Switched(w.k, k', l)
    ensures w' == w.(k := k') && Inv(w')
  {
    w' := w.(k := k');
    OtherListsKeepOrder(w, w');
  }

  /** vTaskSwitchContext ends, and what it picks is ready with a priority no other ready task exceeds. */
  lemma SwitchPicksHighest(w: World) returns (w': World)
    requires Inv(w)
    ensures w.k.suspended == 0 ==> w.k.gen.At(Ready(TopReady(w.k.gen, w.k.top))) != []
    ensures w' == w.(k := SwitchContext(w.k)) && Inv(w')
    ensures w.k.suspended == 0 ==>
      && w'.k.current in w.k.prio && IsReady(w.k, w'.k.current)
      && forall t :: IsReady(w.k, t) ==> t in w.k.prio && w.k.prio[t] <= w.k.prio[w'.k.current]
  {
    if w.k.suspended == 0 {
      var k' := SwitchMakes(w.k);
      var l := TopReady(w.k.gen, w.k.top);
      w' := SwitchedKeepsInv(w, k', l);
      assert k'.current in w.k.gen.At(Ready(l));
    } else {
      w' := FlagKeepsInv(w, w.k.(missedYield := true));
    }
  }

  /** Steps that only touch the suspension counters. */
  lemma FlagKeepsInv(w: World, k': Kernel) returns (w': World)
    requires Inv(w) && k' == w.k.(missedYield := k'.missedYield, suspended := k'.suspended)
    requires k'.suspended == 0 ==> w.k.missed == 0 && w.k.ev.At(Pending) == []
    ensures w' == w.(k := k') && Inv(w')
  {
    w' := w.(k := k');
    SameListsKeepPlaced(w.k, k');
    OtherListsKeepOrder(w, w');
  }

  lemma ReapedKeepsHomed(k: Kernel, k': Kernel, t: Task)
    requires Homed(k) && t in k.gen.where && k.gen.where[t].Terminating?
    requires k'.gen.where == k.gen.where - {t} && k'.prio == k.prio - {t} && k'.base == k.base - {t}
    requires k'.ev == k.ev && k'.levels == k.levels && k'.idle == k.idle && k'.top == k.top
    ensures Homed(k')
  {
  }

  /** prvCheckTasksWaitingTermination */
  lemma ReapKeepsInv(w: World) returns (w': World)
    requires Inv(w) && w.k.gen.At(Terminating) != []
    ensures w.k.tasks > 0 && w.k.deleted > 0
    ensures w' == w.(k := Reap(w.k)) && Inv(w')
    ensures w'.k.gen.where == w.k.gen.where - {w.k.gen.At(Terminating)[0]} && w'.k.ev == w.k.ev
  {
    var k, t := w.k, w.k.gen.At(Terminating)[0];
    assert t in k.gen.At(Terminating);
    UnlinkIsConsistent(k.gen, t);
    assert k.prio.Keys - {t} == (k.prio - {t}).Keys;
    w' := w.(k := Reap(k));
    ReapedKeepsHomed(k, w'.k, t);
    OtherListsKeepOrder(w, w');
  }

  // ---- Ticks and resumption ----

  /** A tick interrupt. */
  ghost function TickWorld(w: World): World
    requires Consistent(w.k.gen)
  {
    if w.k.suspended == 0 then TickOnce(w).(interrupts := w.interrupts + 1)
    else w.(k := IncrementTick(w.k), interrupts := w.interrupts + 1)
  }

  lemma RunningTick(w: World) returns (w': World)
    requires Inv(w) && w.k.suspended == 0
    ensures w' == TickWorld(w) && w'.k == IncrementTick(w.k) && Inv(w')
    ensures WokeOnTime(w, w'.(interrupts := w.interrupts)) && w'.T == w.T + 1
  {
    var t := TickOutcome(w);
    w' := CountTick(w, t);
    assert w'.(interrupts := w.interrupts) == t;
  }

  lemma TickOutcome(w: World) returns (t: World)
    requires Inv(w) && w.k.suspended == 0
    ensures t == TickOnce(w) && t.k == IncrementTick(w.k) && Core(t) && Pendent(t) && WokeOnTime(w, t)
    ensures t.k.missed == 0 && t.k.suspended == 0 && t.T == w.T + 1 && t.interrupts == w.interrupts && t.k.ev.At(Pending) == []
  {
    TickWakesOnTime(w);
    TickKeepsCounters(w.k);
    t := TickOnce(w);
    NoEventAppears(w.k, t.k);
  }

  lemma NoEventAppears(k: Kernel, k': Kernel)
    requires Consistent(k.ev) && Consistent(k'.ev)
    requires forall t :: t in k'.ev.where ==> t in k.ev.where && k'.ev.where[t] == k.ev.where[t]
    ensures forall e, t :: t in k'.ev.At(e) ==> t in k.ev.At(e)
    ensures k.ev.At(Pending) == [] ==> k'.ev.At(Pending) == []
  {
    forall e, t | t in k'.ev.At(e) ensures t in k.ev.At(e) {
      assert t in k'.ev.where && k'.ev.where[t] == e;
    }
    assert k'.ev.At(Pending) != [] ==> k'.ev.At(Pending)[0] in k'.ev.At(Pending);
  }

  lemma HeldTick(w: World) returns (w': World)
    requires Inv(w) && w.k.suspended > 0
    ensures w' == TickWorld(w) && w'.k == IncrementTick(w.k) && Inv(w')
    ensures w'.k == w.k.(missed := w.k.missed + 1) && w'.T == w.T && w'.epoch == w.epoch
  {
    w' := MissedIsIrrelevant(w, w.k.missed + 1);
    w' := CountTick(w, w');
  }

  lemma CountTick(w: World, w1: World) returns (w': World)
    requires Core(w1) && Pendent(w1) && w1.k.suspended == w.k.suspended && w1.T + w1.k.missed == w.interrupts + 1
    requires w.k.suspended == 0 ==> w1.k.missed == 0 && w1.k.ev.At(Pending) == []
    ensures w' == w1.(interrupts := w.interrupts + 1) && Inv(w')
  {
    w' := w1.(interrupts := w.interrupts + 1);
    assert Core(w') && Pendent(w');
  }

  lemma SuspendAllKeepsInv(w: World) returns (w': World)
    requires Inv(w)
    ensures w' == w.(k := SuspendAll(w.k)) && Inv(w')
  {
    w' := FlagKeepsInv(w, SuspendAll(w.k));
  }

  /** What resuming the scheduler for good amounts to. */
  ghost predicate Resumed(w: World, w': World) {
    && w'.T == w.T + w.k.missed && w'.interrupts == w.interrupts
    && w'.k.suspended == 0 && w'.k.prio == w.k.prio
    && (forall t :: t in w'.k.gen.where <==> t in w.k.gen.where)
    && (forall t :: t in w.k.ev.At(Pending) ==> t in w.k.prio && t in w'.k.gen.where && w'.k.gen.where[t] == Ready(w.k.prio[t]) && t !in w'.k.ev.where)
    && (forall t :: t in w.k.gen.where && t !in w.k.ev.At(Pending) ==>
          if IsDelayed(w.k, t) && Due(w, t) <= w'.T && w'.T > w.T
          then t in w.k.prio && w'.k.gen.where[t] == Ready(w.k.prio[t]) && t !in w'.k.ev.where
          else
            && w'.k.gen.where[t] == w.k.gen.where[t] && (t in w'.k.ev.where <==> t in w.k.ev.where)
            && (IsDelayed(w.k, t) ==> Due(w', t) == Due(w, t)))
  }

  lemma SuspensionIsIrrelevant(w: World, k': Kernel) returns (w': World)
    requires Core(w) && Pendent(w) && k' == w.k.(suspended := k'.suspended, missedYield := k'.missedYield)
    ensures w' == w.(k := k') && Core(w') && Pendent(w')
  {
    w' := w.(k := k');
    SameListsKeepPlaced(w.k, k');
    OtherListsKeepOrder(w, w');
  }

  lemma DrainWorld(w: World) returns (w': World)
    requires Core(w) && Pendent(w)
    ensures w' == w.(k := DrainPending(w.k)) && Core(w') && Pendent(w') && w'.k.ev.At(Pending) == []
    ensures w'.k == w.k.(gen := w'.k.gen, ev := w'.k.ev, top := w'.k.top)
    ensures forall t :: t in w'.k.gen.where <==> t in w.k.gen.where
    ensures forall t :: t in w.k.ev.At(Pending) ==> t in w.k.prio && w'.k.gen.where[t] == Ready(w.k.prio[t]) && t !in w'.k.ev.where
    ensures forall t :: t in w.k.gen.where && t !in w.k.ev.At(Pending) ==>
      w'.k.gen.where[t] == w.k.gen.where[t] && (t in w'.k.ev.where <==> t in w.k.ev.where)
  {
    DrainReadiesPending(w);
    w' := w.(k := DrainPending(w.k));
  }

  lemma ReplayOutcome(w: World) returns (w': World)
    requires Core(w) && Pendent(w) && w.k.suspended == 0 && w.k.ev.At(Pending) == []
    ensures w' == ReplayWorld(w) && w'.k == ReplayTicks(w.k) && Core(w') && Pendent(w')
    ensures w'.T == w.T + w.k.missed && w'.k.missed == 0 && w'.k.suspended == 0 && w'.k.ev.At(Pending) == []
    ensures if w.k.missed == 0 then w' == w else WokeOnTime(w, w')
  {
    ReplayWakesOnTime(w);
    w' := ReplayWorld(w);
    if w.k.missed > 0 {
      NoEventAppears(w.k, w'.k);
    }
  }

  lemma ResumedByParts(w: World, d: World, r: World, w': World)
    requires d == w.(k := d.k) && d.k == w.k.(gen := d.k.gen, ev := d.k.ev, top := d.k.top, suspended := 0)
    requires forall t :: t in d.k.gen.where <==> t in w.k.gen.where
    requires forall t :: t in w.k.ev.At(Pending) ==> t in w.k.prio && t in w.k.gen.where && d.k.gen.where[t] == Ready(w.k.prio[t]) && t !in d.k.ev.where
    requires forall t :: t in w.k.gen.where && t !in w.k.ev.At(Pending) ==>
      d.k.gen.where[t] == w.k.gen.where[t] && (t in d.k.ev.where <==> t in w.k.ev.where)
    requires r.T == d.T + d.k.missed && r.k.suspended == 0 && (if d.k.missed == 0 then r == d else WokeOnTime(d, r))
    requires w' == r.(k := r.k.(missedYield := false))
    ensures Resumed(w, w')
  {
    assert w'.k.gen == r.k.gen && w'.k.ev == r.k.ev && w'.k.wake == r.k.wake && w'.epoch == r.epoch && w'.k.active == r.k.active;
  }

  lemma TasksCounted(k: Kernel)
    requires Placed(k) && Counted(k)
    ensures k.tasks > 0
  {
    assert k.idle in k.prio.Keys && |k.prio.Keys| == |k.prio|;
  }

  lemma ResumeUnfolds(k: Kernel, d: Kernel)
    requires Consistent(k.gen) && Consistent(k.ev) && k.suspended == 1 && k.tasks > 0
    requires d == DrainPending(k.(suspended := 0))
    ensures d.suspended == 0 && Consistent(d.gen) && ResumeAll(k) == ReplayTicks(d).(missedYield := false)
  {
    DrainKeepsCounters(k.(suspended := 0));
  }

  lemma StartDrain(w: World) returns (d: World)
    requires Inv(w) && w.k.suspended == 1
    ensures Core(d) && Pendent(d) && d.k.ev.At(Pending) == [] && d.k == DrainPending(w.k.(suspended := 0))
    ensures d == w.(k := d.k) && d.k == w.k.(gen := d.k.gen, ev := d.k.ev, top := d.k.top, suspended := 0)
    ensures forall t :: t in d.k.gen.where <==> t in w.k.gen.where
    ensures forall t :: t in w.k.ev.At(Pending) ==> t in w.k.prio && t in w.k.gen.where && d.k.gen.where[t] == Ready(w.k.prio[t]) && t !in d.k.ev.where
    ensures forall t :: t in w.k.gen.where && t !in w.k.ev.At(Pending) ==>
      d.k.gen.where[t] == w.k.gen.where[t] && (t in d.k.ev.where <==> t in w.k.ev.where)
  {
    assert forall t :: t in w.k.ev.At(Pending) ==> t in w.k.gen.where;
    var s := SuspensionIsIrrelevant(w, w.k.(suspended := 0));
    d := DrainWorld(s);
  }

  /** xTaskResumeAll, when it ends the last suspension: nothing that happened meanwhile is lost. */
  lemma ResumeLosesNothing(w: World) returns (w': World)
    requires Inv(w) && w.k.suspended == 1
    ensures w'.k == ResumeAll(w.k) && Inv(w') && Resumed(w, w')
  {
    TasksCounted(w.k);
    var d := StartDrain(w);
    ResumeUnfolds(w.k, d.k);
    var r := ReplayOutcome(d);
    w' := SuspensionIsIrrelevant(r, r.k.(missedYield := false));
    ResumedByParts(w, d, r, w');
  }

  // ---- Steps and runs ----

  datatype Op =
    | TickInterrupt
    | SuspendScheduler
    | ResumeScheduler
    | SwitchTask
    | DelayCurrent(ticks: nat)
    | BlockCurrent(e: nat, ticks: nat)
    | BlockRestricted(e: nat, ticks: nat, at: nat)
    | RaiseEvent(e: nat)
    | CreateTask(t: Task, priority: nat)
    | SuspendOther(t: Task)
    | ResumeOther(t: Task)
    | ResumeOtherFromISR(t: Task)
    | DeleteTask(t: Task)
    | ReapTask
    | InheritFrom(t: Task)
    | DisinheritBy(t: Task)
    | Reprioritise(t: Task, priority: nat)

  /** What the callers of each step guarantee. */
  ghost predicate Allowed(k: Kernel, op: Op) {
    match op
    case ResumeScheduler => k.suspended > 0
    case DelayCurrent(ticks) => IsReady(k, k.current) && k.current != k.idle && 0 < ticks < k.period
    case BlockCurrent(_, ticks) => IsReady(k, k.current) && k.current != k.idle && 0 < ticks < k.period
    case BlockRestricted(e, ticks, at) =>
      && IsReady(k, k.current) && k.current != k.idle && at <= |k.ev.At(Event(e))|
      && ticks < k.period && (ticks == 0 ==> k.tick + 1 < k.period)
    case RaiseEvent(e) => k.ev.At(Event(e)) != []
    case CreateTask(t, _) => t !in k.prio
    case SuspendOther(t) => t in k.gen.where && !k.gen.where[t].Terminating? && t != k.idle
    case DeleteTask(t) => t in k.gen.where && !k.gen.where[t].Terminating? && t != k.idle
    case ReapTask => k.gen.At(Terminating) != []
    case InheritFrom(t) => t in k.prio
    case DisinheritBy(t) => t in k.prio && t in k.base && (MayBeReadied(k, t) || k.prio[t] == k.base[t])
    case Reprioritise(t, _) => t in k.prio
    case _ => true
  }

  ghost function Effect(k: Kernel, op: Op): Kernel
    requires Placed(k) && Counted(k) && Allowed(k, op)
  {
    match op
    case TickInterrupt => IncrementTick(k)
    case SuspendScheduler => SuspendAll(k)
    case ResumeScheduler => ResumeAll(k)
    case SwitchTask => SomeTaskIsReady(k); SwitchContext(k)
    case DelayCurrent(ticks) => DelayFor(k, ticks)
    case BlockCurrent(e, ticks) => PlaceOnEventList(k, e, ticks)
    case BlockRestricted(e, ticks, at) => PlaceRestricted(k, e, ticks, at)
    case RaiseEvent(e) => SignalEvent(k, e)
    case CreateTask(t, priority) => Create(k, t, priority)
    case SuspendOther(t) => SuspendTask(k, t)
    case ResumeOther(t) => ResumeTask(k, t)
    case ResumeOtherFromISR(t) => ResumeFromISR(k, t)
    case DeleteTask(t) => Delete(k, t)
    case ReapTask => TasksCounted(k); Reap(k)
    case InheritFrom(t) => Inherit(k, t)
    case DisinheritBy(t) => Disinherit(k, t)
    case Reprioritise(t, priority) => SetPriority(k, t, priority)
  }

  ghost function Step(w: World, op: Op): World
    requires Placed(w.k) && Counted(w.k) && Allowed(w.k, op)
  {
    WorldOf(Effect(w.k, op), if op.TickInterrupt? then w.interrupts + 1 else w.interrupts)
  }

  /** Whether a step moves task `t` for another reason than its deadline. */
  ghost predicate Handles(k: Kernel, op: Op, t: Task) {
    match op
    case DelayCurrent(_) => t == k.current
    case BlockCurrent(_, _) => t == k.current
    case BlockRestricted(_, _, _) => t == k.current
    case RaiseEvent(e) => k.ev.At(Event(e)) != [] && t == k.ev.At(Event(e))[0]
    case SuspendOther(u) => t == u
    case ResumeOther(u) => t == u
    case ResumeOtherFromISR(u) => t == u
    case DeleteTask(u) => t == u
    case ReapTask => k.gen.At(Terminating) != [] && t == k.gen.At(Terminating)[0]
    case ResumeScheduler => t in k.ev.At(Pending)
    case DisinheritBy(u) => t == u && !IsReady(k, t)
    case _ => false
  }

  /** Ready tasks stay ready; delayed ones keep their deadline and become ready when the clock reaches it. */
  ghost predicate Kept(w: World, w': World, t: Task) {
    && (IsReady(w.k, t) ==> IsReady(w'.k, t))
    && (IsDelayed(w.k, t) ==>
          if w.T < w'.T && Due(w, t) <= w'.T then IsReady(w'.k, t) else IsDelayed(w'.k, t) && Due(w', t) == Due(w, t))
  }

  ghost predicate Leaves(w: World, op: Op, t: Task) {
    t in w.k.gen.where && !Handles(w.k, op, t)
  }

  /** No task but `u` moved. */
  ghost predicate OnlyMoved(k: Kernel, k': Kernel, u: Task) {
    && k'.wake == k.wake && k'.active == k.active && k'.period == k.period
    && forall t :: t in k.gen.where && t != u ==> t in k'.gen.where && k'.gen.where[t] == k.gen.where[t]
  }

  lemma OtherIsKept(w: World, w': World, t: Task, u: Task)
    requires OnlyMoved(w.k, w'.k, u) && t in w.k.gen.where && t != u && w'.T == w.T && w'.epoch == w.epoch
    ensures Kept(w, w', t)
  {
  }

  lemma UnmovedIsKept(w: World, w': World, t: Task)
    requires t in w.k.gen.where && t in w'.k.gen.where
    requires w'.k.gen.where[t] == w.k.gen.where[t] || (w.k.gen.where[t].Ready? && w'.k.gen.where[t].Ready?)
    requires w'.k.wake == w.k.wake && w'.k.active == w.k.active && w'.k.period == w.k.period
    requires w'.T == w.T && w'.epoch == w.epoch
    ensures Kept(w, w', t)
  {
  }

  lemma ReadyMoveIsKept(w: World, w': World, t: Task)
    requires OnlyReadyMoved(w.k, w'.k) && t in w.k.gen.where && w'.T == w.T && w'.epoch == w.epoch
    ensures Kept(w, w', t)
  {
  }

  lemma WaitedIsKept(w: World, w': World, t: Task, deadline: nat)
    requires WaitsUntil(w, w', deadline) && t in w.k.gen.where && t != w.k.current && w'.T == w.T
    ensures Kept(w, w', t)
  {
  }

  lemma TickedIsKept(w: World, w': World, t: Task)
    requires WokeOnTime(w, w'.(interrupts := w.interrupts)) && t in w.k.gen.where
    ensures Kept(w, w', t)
  {
  }

  lemma ResumedIsKept(w: World, w': World, t: Task)
    requires Resumed(w, w') && t in w.k.gen.where && t !in w.k.ev.At(Pending)
    ensures Kept(w, w', t)
  {
  }

  /** One task has been created: prvInitialiseTaskLists and its own ready list. */
  ghost function Alone(n: Period, l: Levels, t: Task, priority: nat): World {
    var p := if priority >= l then l - 1 else priority;
    World(Kernel(n, l, Lists(map[Ready(p) := [t]], map[t := Ready(p)]), Lists(map[], map[]),
                 map[t := p], map[t := p], map[t := l - p], map[],
                 true, 0, 0, n - 1, p, 0, 0, false, t, t, 1, 0), 0, 0, 0)
  }

  lemma AloneIsPlaced(n: Period, l: Levels, t: Task, priority: nat)
    ensures var k := Alone(n, l, t, priority).k; Placed(k) && Counted(k) && k.prio == k.base && k.prio.Keys == {t} && IsReady(k, t)
  {
    var p := if priority >= l then l - 1 else priority;
    assert [t][0] == t && |map[t := p]| == 1;
  }

  lemma AloneIsGood(n: Period, l: Levels, t: Task, priority: nat)
    ensures Inv(Alone(n, l, t, priority))
  {
    AloneIsPlaced(n, l, t, priority);
    var k := Alone(n, l, t, priority).k;
    assert forall b :: k.gen.At(Delay(b)) == [];
  }

  ghost function InitialWorld(): (w: World)
    ensures Inv(w) && w.k.prio == w.k.base
  {
    AloneIsGood(2, 1, 0, 0);
    AloneIsPlaced(2, 1, 0, 0);
    Alone(2, 1, 0, 0)
  }

  /** The states that satisfy every invariant. */
  type GoodWorld = w: World | Inv(w) ghost witness InitialWorld()

  /** The next state, up to the clocks, which Clock ties to the tick count. */
  ghost predicate Outcome(w: World, op: Op, w': World)
    requires Placed(w.k) && Counted(w.k) && Allowed(w.k, op)
  {
    w'.k == Effect(w.k, op) && w'.interrupts == if op.TickInterrupt? then w.interrupts + 1 else w.interrupts
  }

  lemma TickOutcomeFor(w: GoodWorld, op: Op, t: Task) returns (w': GoodWorld)
    requires op.TickInterrupt?
    ensures Outcome(w, op, w') && w.T <= w'.T
    ensures Leaves(w, op, t) ==> Kept(w, w', t)
  {
    if w.k.suspended == 0 {
      w' := RunningTick(w);
      if Leaves(w, op, t) {
        TickedIsKept(w, w', t);
      }
    } else {
      w' := HeldTick(w);
      if Leaves(w, op, t) {
        UnmovedIsKept(w, w', t);
      }
    }
  }

  lemma ResumeOutcomeFor(w: GoodWorld, op: Op, t: Task) returns (w': GoodWorld)
    requires Allowed(w.k, op) && op.ResumeScheduler?
    ensures Outcome(w, op, w') && w.T <= w'.T
    ensures Leaves(w, op, t) ==> Kept(w, w', t)
  {
    if w.k.suspended == 1 {
      w' := ResumeLosesNothing(w);
      if Leaves(w, op, t) {
        ResumedIsKept(w, w', t);
      }
    } else {
      w' := FlagKeepsInv(w, w.k.(suspended := w.k.suspended - 1));
      if Leaves(w, op, t) {
        UnmovedIsKept(w, w', t);
      }
    }
  }

  lemma BlockMakes(w: GoodWorld, op: Op) returns (w': GoodWorld)
    requires Allowed(w.k, op) && op.BlockCurrent?
    ensures Outcome(w, op, w') && SameClock(w, w')
    ensures if op.ticks == MaxDelay(w.k) then OnlyMoved(w.k, w'.k, w.k.current)
      else WaitsUntil(w, w', w.T + op.ticks)
  {
    w' := BlockKeepsInv(w, op.e, op.ticks);
  }

  lemma BlockOutcomeFor(w: GoodWorld, op: Op, t: Task) returns (w': GoodWorld)
    requires Allowed(w.k, op) && op.BlockCurrent?
    ensures Outcome(w, op, w') && w.T <= w'.T
    ensures Leaves(w, op, t) ==> Kept(w, w', t)
  {
    w' := BlockMakes(w, op);
    if op.ticks == MaxDelay(w.k) {
      if Leaves(w, op, t) {
        OtherIsKept(w, w', t, w.k.current);
      }
    } else {
      if Leaves(w, op, t) {
        WaitedIsKept(w, w', t, w.T + op.ticks);
      }
    }
  }

  lemma EventMakes(w: GoodWorld, op: Op) returns (w': GoodWorld)
    requires Allowed(w.k, op) && op.RaiseEvent?
    ensures Outcome(w, op, w') && SameClock(w, w')
    ensures w'.k.wake == w.k.wake && w'.k.active == w.k.active && w'.k.period == w.k.period
    ensures w'.k.gen.where == w.k.gen.where || exists p :: w'.k.gen.where == w.k.gen.where[w.k.ev.At(Event(op.e))[0] := Ready(p)]
  {
    w' := SignalKeepsInv(w, op.e);
  }

  lemma EventOutcomeFor(w: GoodWorld, op: Op, t: Task) returns (w': GoodWorld)
    requires Allowed(w.k, op) && op.RaiseEvent?
    ensures Outcome(w, op, w') && w.T <= w'.T
    ensures Leaves(w, op, t) ==> Kept(w, w', t)
  {
    w' := EventMakes(w, op);
    if Leaves(w, op, t) {
      UnmovedIsKept(w, w', t);
    }
  }

  lemma DelayOutcomeFor(w: GoodWorld, op: Op, t: Task) returns (w': GoodWorld)
    requires Allowed(w.k, op) && op.DelayCurrent?
    ensures Outcome(w, op, w') && w.T <= w'.T
    ensures Leaves(w, op, t) ==> Kept(w, w', t)
  {
    w' := DelayKeepsInv(w, op.ticks);
    if Leaves(w, op, t) {
      WaitedIsKept(w, w', t, w.T + op.ticks);
    }
  }

  lemma RestrictedOutcomeFor(w: GoodWorld, op: Op, t: Task) returns (w': GoodWorld)
    requires Allowed(w.k, op) && op.BlockRestricted?
    ensures Outcome(w, op, w') && w.T <= w'.T
    ensures Leaves(w, op, t) ==> Kept(w, w', t)
  {
    w' := BlockRestrictedKeepsInv(w, op.e, op.ticks, op.at);
    if Leaves(w, op, t) {
      WaitedIsKept(w, w', t, w.T + op.ticks);
    }
  }

  lemma SuspendAllOutcomeFor(w: GoodWorld, op: Op, t: Task) returns (w': GoodWorld)
    requires Allowed(w.k, op) && op.SuspendScheduler?
    ensures Outcome(w, op, w') && w.T <= w'.T
    ensures Leaves(w, op, t) ==> Kept(w, w', t)
  {
    w' := SuspendAllKeepsInv(w);
    if Leaves(w, op, t) {
      UnmovedIsKept(w, w', t);
    }
  }

  lemma SwitchOutcomeFor(w: GoodWorld, op: Op, t: Task) returns (w': GoodWorld)
    requires Allowed(w.k, op) && op.SwitchTask?
    ensures Outcome(w, op, w') && w.T <= w'.T
    ensures Leaves(w, op, t) ==> Kept(w, w', t)
  {
    w' := SwitchPicksHighest(w);
    if Leaves(w, op, t) {
      UnmovedIsKept(w, w', t);
    }
  }

  lemma CreateOutcomeFor(w: GoodWorld, op: Op, t: Task) returns (w': GoodWorld)
    requires Allowed(w.k, op) && op.CreateTask?
    ensures Outcome(w, op, w') && w.T <= w'.T
    ensures Leaves(w, op, t) ==> Kept(w, w', t)
  {
    w' := CreateKeepsInv(w, op.t, op.priority);
    if Leaves(w, op, t) {
      UnmovedIsKept(w, w', t);
    }
  }

  lemma SuspendMakes(w: GoodWorld, op: Op) returns (w': GoodWorld)
    requires Allowed(w.k, op) && op.SuspendOther?
    ensures Outcome(w, op, w') && SameClock(w, w')
    ensures OnlyMoved(w.k, w'.k, op.t)
  {
    w' := SuspendTaskKeepsInv(w, op.t);
  }

  lemma SuspendOutcomeFor(w: GoodWorld, op: Op, t: Task) returns (w': GoodWorld)
    requires Allowed(w.k, op) && op.SuspendOther?
    ensures Outcome(w, op, w') && w.T <= w'.T
    ensures Leaves(w, op, t) ==> Kept(w, w', t)
  {
    w' := SuspendMakes(w, op);
    if Leaves(w, op, t) {
      OtherIsKept(w, w', t, op.t);
    }
  }

  lemma ResumeTaskOutcomeFor(w: GoodWorld, op: Op, t: Task) returns (w': GoodWorld)
    requires Allowed(w.k, op) && op.ResumeOther?
    ensures Outcome(w, op, w') && w.T <= w'.T
    ensures Leaves(w, op, t) ==> Kept(w, w', t)
  {
    w' := ResumeTaskKeepsInv(w, op.t);
    if Leaves(w, op, t) {
      UnmovedIsKept(w, w', t);
    }
  }

  lemma ResumeISROutcomeFor(w: GoodWorld, op: Op, t: Task) returns (w': GoodWorld)
    requires Allowed(w.k, op) && op.ResumeOtherFromISR?
    ensures Outcome(w, op, w') && w.T <= w'.T
    ensures Leaves(w, op, t) ==> Kept(w, w', t)
  {
    w' := ResumeFromISRKeepsInv(w, op.t);
    if Leaves(w, op, t) {
      UnmovedIsKept(w, w', t);
    }
  }

  lemma DeleteMakes(w: GoodWorld, op: Op) returns (w': GoodWorld)
    requires Allowed(w.k, op) && op.DeleteTask?
    ensures Outcome(w, op, w') && SameClock(w, w')
    ensures OnlyMoved(w.k, w'.k, op.t)
  {
    w' := DeleteKeepsInv(w, op.t);
  }

  lemma DeleteOutcomeFor(w: GoodWorld, op: Op, t: Task) returns (w': GoodWorld)
    requires Allowed(w.k, op) && op.DeleteTask?
    ensures Outcome(w, op, w') && w.T <= w'.T
    ensures Leaves(w, op, t) ==> Kept(w, w', t)
  {
    w' := DeleteMakes(w, op);
    if Leaves(w, op, t) {
      OtherIsKept(w, w', t, op.t);
    }
  }

  lemma ReapOutcomeFor(w: GoodWorld, op: Op, t: Task) returns (w': GoodWorld)
    requires Allowed(w.k, op) && op.ReapTask?
    ensures Outcome(w, op, w') && w.T <= w'.T
    ensures Leaves(w, op, t) ==> Kept(w, w', t)
  {
    w' := ReapKeepsInv(w);
    if Leaves(w, op, t) {
      UnmovedIsKept(w, w', t);
    }
  }

  lemma InheritOutcomeFor(w: GoodWorld, op: Op, t: Task) returns (w': GoodWorld)
    requires Allowed(w.k, op) && op.InheritFrom?
    ensures Outcome(w, op, w') && w.T <= w'.T
    ensures Leaves(w, op, t) ==> Kept(w, w', t)
  {
    w' := InheritKeepsInv(w, op.t);
    if Leaves(w, op, t) {
      ReadyMoveIsKept(w, w', t);
    }
  }

  lemma DisinheritMovesOne(k: Kernel, k': Kernel, holder: Task)
    requires k' == Disinherit(k, holder) && holder in k.prio && holder in k.base
    requires k.prio[holder] != k.base[holder] ==> k'.gen.where == k.gen.where[holder := Ready(k.base[holder])]
    ensures OnlyMoved(k, k', holder)
  {
  }

  lemma DisinheritMakes(w: GoodWorld, op: Op) returns (w': GoodWorld)
    requires Allowed(w.k, op) && op.DisinheritBy?
    ensures Outcome(w, op, w') && SameClock(w, w')
    ensures OnlyMoved(w.k, w'.k, op.t) && (IsReady(w.k, op.t) ==> OnlyReadyMoved(w.k, w'.k))
  {
    w' := DisinheritKeepsInv(w, op.t);
    DisinheritMovesOne(w.k, w'.k, op.t);
  }

  lemma DisinheritOutcomeFor(w: GoodWorld, op: Op, t: Task) returns (w': GoodWorld)
    requires Allowed(w.k, op) && op.DisinheritBy?
    ensures Outcome(w, op, w') && w.T <= w'.T
    ensures Leaves(w, op, t) ==> Kept(w, w', t)
  {
    w' := DisinheritMakes(w, op);
    if Leaves(w, op, t) {
      if t == op.t {
        ReadyMoveIsKept(w, w', t);
      } else {
        OtherIsKept(w, w', t, op.t);
      }
    }
  }

  lemma RepricedOutcomeFor(w: GoodWorld, op: Op, t: Task) returns (w': GoodWorld)
    requires Allowed(w.k, op) && op.Reprioritise?
    ensures Outcome(w, op, w') && w.T <= w'.T
    ensures Leaves(w, op, t) ==> Kept(w, w', t)
  {
    w' := SetPriorityKeepsInv(w, op.t, op.priority);
    if Leaves(w, op, t) {
      ReadyMoveIsKept(w, w', t);
    }
  }

  lemma IsStep(w: World, op: Op, w': World)
    requires Placed(w.k) && Counted(w.k) && Allowed(w.k, op) && Clock(w') && Outcome(w, op, w')
    ensures w' == Step(w, op)
  {
  }

  lemma AnyOutcome(w: GoodWorld, op: Op, t: Task) returns (w': GoodWorld)
    requires Allowed(w.k, op)
    ensures Outcome(w, op, w') && w.T <= w'.T
    ensures Leaves(w, op, t) ==> Kept(w, w', t)
  {
    match op
    case TickInterrupt => w' := TickOutcomeFor(w, op, t);
    case SuspendScheduler => w' := SuspendAllOutcomeFor(w, op, t);
    case ResumeScheduler => w' := ResumeOutcomeFor(w, op, t);
    case SwitchTask => w' := SwitchOutcomeFor(w, op, t);
    case DelayCurrent(_) => w' := DelayOutcomeFor(w, op, t);
    case BlockCurrent(_, _) => w' := BlockOutcomeFor(w, op, t);
    case BlockRestricted(_, _, _) => w' := RestrictedOutcomeFor(w, op, t);
    case RaiseEvent(_) => w' := EventOutcomeFor(w, op, t);
    case CreateTask(_, _) => w' := CreateOutcomeFor(w, op, t);
    case SuspendOther(_) => w' := SuspendOutcomeFor(w, op, t);
    case ResumeOther(_) => w' := ResumeTaskOutcomeFor(w, op, t);
    case ResumeOtherFromISR(_) => w' := ResumeISROutcomeFor(w, op, t);
    case DeleteTask(_) => w' := DeleteOutcomeFor(w, op, t);
    case ReapTask => w' := ReapOutcomeFor(w, op, t);
    case InheritFrom(_) => w' := InheritOutcomeFor(w, op, t);
    case DisinheritBy(_) => w' := DisinheritOutcomeFor(w, op, t);
    case Reprioritise(_, _) => w' := RepricedOutcomeFor(w, op, t);
  }

  /** Every allowed step keeps every invariant, never turns back the clock, and leaves the tasks it does
      not handle ready if they were ready, and delayed exactly until their deadline. */
  lemma StepKeepsInv(w: GoodWorld, op: Op, t: Task) returns (w': GoodWorld)
    requires Allowed(w.k, op)
    ensures w' == Step(w, op) && w.T <= w'.T
    ensures Leaves(w, op, t) ==> Kept(w, w', t)
  {
    w' := AnyOutcome(w, op, t);
    IsStep(w, op, w');
  }

  // ---- Runs ----

  /** Whether a sequence of steps can be taken from `w`, each allowed where it is taken. */
  ghost predicate CanRun(w: GoodWorld, ops: seq<Op>)
    decreases |ops|
  {
    ops == [] || (Allowed(w.k, ops[0]) && CanRun(Next(w, ops[0]), ops[1..]))
  }

  ghost function Next(w: GoodWorld, op: Op): GoodWorld
    requires Allowed(w.k, op)
  {
    StepIsGood(w, op);
    Step(w, op)
  }

  lemma StepIsGood(w: GoodWorld, op: Op)
    requires Allowed(w.k, op)
    ensures Inv(Step(w, op))
  {
    var w' := StepKeepsInv(w, op, w.k.idle);
  }

  ghost function Run(w: GoodWorld, ops: seq<Op>): GoodWorld
    requires CanRun(w, ops)
    decreases |ops|
  {
    if ops == [] then w else Run(Next(w, ops[0]), ops[1..])
  }

  /** No step of the run moves task `t` for another reason than its deadline. */
  ghost predicate LeftAlone(w: GoodWorld, ops: seq<Op>, t: Task)
    requires CanRun(w, ops)
    decreases |ops|
  {
    ops == [] || (!Handles(w.k, ops[0], t) && LeftAlone(Next(w, ops[0]), ops[1..], t))
  }

  /** A ready task that is left alone stays ready through any run. */
  lemma {:induction false} ReadyStaysReady(w: GoodWorld, ops: seq<Op>, t: Task)
    requires CanRun(w, ops) && LeftAlone(w, ops, t) && IsReady(w.k, t)
    ensures IsReady(Run(w, ops).k, t)
    decreases |ops|
  {
    if ops != [] {
      var w' := StepKeepsInv(w, ops[0], t);
      ReadyStaysReady(Next(w, ops[0]), ops[1..], t);
    }
  }

  /** Exact wake-up: over any run that leaves a delayed task alone, through any number of counter wraps,
      list swaps and scheduler suspensions, the task is delayed while the unwrapped clock is before its
      deadline, and ready from the tick that reaches it. */
  lemma {:induction false} WakesExactlyWhenDue(w: GoodWorld, ops: seq<Op>, t: Task)
    requires CanRun(w, ops) && LeftAlone(w, ops, t) && IsDelayed(w.k, t) && w.T < Due(w, t)
    ensures var w' := Run(w, ops);
      if w'.T < Due(w, t) then IsDelayed(w'.k, t) && Due(w', t) == Due(w, t) else IsReady(w'.k, t)
    ensures w.T <= Run(w, ops).T
    decreases |ops|
  {
    if ops != [] {
      var w' := StepKeepsInv(w, ops[0], t);
      if Due(w, t) <= w'.T {
        ReadyStaysReady(Next(w, ops[0]), ops[1..], t);
        ClockGoesOn(Next(w, ops[0]), ops[1..]);
      } else {
        WakesExactlyWhenDue(Next(w, ops[0]), ops[1..], t);
      }
    }
  }

  lemma {:induction false} ClockGoesOn(w: GoodWorld, ops: seq<Op>)
    requires CanRun(w, ops)
    ensures w.T <= Run(w, ops).T
    decreases |ops|
  {
    if ops != [] {
      var w' := StepKeepsInv(w, ops[0], w.k.idle);
      ClockGoesOn(Next(w, ops[0]), ops[1..]);
    }
  }

  // ---- vTaskDelayUntil ----

  /** On wrapped times the test of vTaskDelayUntil says whether the unwrapped wake time is still to come. */
  lemma ShouldDelayIffFuture(previous: nat, increment: nat, now: nat, n: nat)
    requires 0 < increment < n && previous <= now < previous + n
    ensures ShouldDelay(previous % n, (previous + increment) % n, now % n) <==> now < previous + increment
  {
    EpochGap(previous, now, n);
    EpochGap(previous, previous + increment, n);
  }

  lemma TickIsWrappedTime(w: GoodWorld)
    ensures w.T % w.k.period == w.k.tick
  {
    assert w.T == w.k.period * w.k.overflows + w.k.tick;
    DivModUnique(w.T, w.k.period, w.k.overflows, w.k.tick);
  }

  lemma SumWraps(a: nat, b: nat, n: nat)
    requires 0 < n
    ensures (a % n + b) % n == (a + b) % n
  {
    var q, r := (a % n + b) / n, (a % n + b) % n;
    assert a == n * (a / n) + a % n && a % n + b == n * q + r;
    assert n * (a / n + q) == n * (a / n) + n * q;
    DivModUnique(a + b, n, a / n + q, r);
  }

  lemma WakeTimesAgree(previous: nat, increment: nat, now: nat, n: nat)
    requires 0 < n && now < previous + increment
    ensures (previous % n + increment) % n == (now % n + (previous + increment - now)) % n
  {
    SumWraps(previous, increment, n);
    SumWraps(now, previous + increment - now, n);
  }

  /** So vTaskDelayUntil delays until the unwrapped sum of the previous wake time and the increment, and not
      at all if that is past, provided the previous wake is less than a whole wrap ago. */
  lemma DelayUntilIsExact(k: Kernel, now: nat, previous: nat, increment: nat)
    requires k.tick == now % k.period
    requires 0 < increment < k.period && previous <= now < previous + k.period
    ensures DelayUntil(k, previous % k.period, increment) ==
      if now < previous + increment then DelayFor(k, previous + increment - now) else k
  {
    SumWraps(previous, increment, k.period);
    ShouldDelayIffFuture(previous, increment, now, k.period);
    if now < previous + increment {
      WakeTimesAgree(previous, increment, now, k.period);
    }
  }
}
