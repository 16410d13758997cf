/** tasks.c as it runs: file-scope state that each function updates step by step. Every method is proved
    against the function of module Tasks that the theorems about runs are about. */
module KernelObject {
  import opened Sequences
  import opened Containers
  import opened Ticks
  import opened Tasks
  import opened TaskInvariants
  import opened TaskSteps
  import opened TaskRuns
  import opened TaskCounters

  lemma ScanWakesHead(k: Kernel)
    requires Consistent(k.gen) && Delayed(k) != [] && k.tick >= Get(k.wake, Delayed(k)[0])
    ensures var k' := WakeTask(k, Delayed(k)[0]);
      Consistent(k'.gen) && Scan(k) == Scan(k') && |Delayed(k')| < |Delayed(k)|
  {
    var t := Delayed(k)[0];
    MovedIsConsistent(k.gen, t, Ready(Get(k.prio, t)), |Unlink(k.gen, t).At(Ready(Get(k.prio, t)))|);
  }

  lemma DrainWakesHead(k: Kernel)
    requires Consistent(k.gen) && Consistent(k.ev) && k.ev.At(Pending) != []
    ensures var t := k.ev.At(Pending)[0]; var k' := WakeTask(k, t);
      && Consistent(k'.gen) && Consistent(k'.ev) && DrainPending(k) == DrainPending(k')
      && k'.ev.At(Pending) == k.ev.At(Pending)[1..]
  {
    var t := k.ev.At(Pending)[0];
    UnlinkIsConsistent(k.ev, t);
    MovedIsConsistent(k.gen, t, Ready(Get(k.prio, t)), |Unlink(k.gen, t).At(Ready(Get(k.prio, t)))|);
  }

  lemma ReplayOnce(k: Kernel) returns (k': Kernel)
    requires Consistent(k.gen) && k.suspended == 0 && k.missed > 0
    ensures k' == Tasks.IncrementTick(k) && Consistent(k'.gen) && k'.suspended == 0 && k'.missed == k.missed
    ensures ReplayTicks(k) == ReplayTicks(k'.(missed := k.missed - 1))
  {
    TickKeepsCounters(k);
    k' := Tasks.IncrementTick(k);
  }

  // ---- What a step comes to, for a state that satisfies the invariants ----

  /** The history that the counters of a state stand for. */
  ghost function Now(k: Kernel): World {
    WorldOf(k, k.overflows * k.period + k.tick + k.missed)
  }

  ghost predicate Good(k: Kernel) {
    Inv(Now(k))
  }

  lemma IsNow(w: World)
    requires Inv(w)
    ensures w == Now(w.k) && Good(w.k)
  {
  }

  lemma StepsStayGood(k: Kernel, op: Op)
    requires Good(k) && Allowed(k, op)
    ensures Good(Effect(k, op)) && Now(Effect(k, op)) == Step(Now(k), op)
  {
    StepIsGood(Now(k), op);
    IsNow(Step(Now(k), op));
  }

  /** The task waits until `deadline` on the unwrapped clock. */
  ghost predicate DelayedUntil(k: Kernel, t: Task, deadline: nat) {
    IsDelayed(k, t) && Due(Now(k), t) == deadline
  }

  lemma DelayedAtTicks(k: Kernel, ticks: nat)
    requires Good(k) && Allowed(k, DelayCurrent(ticks))
    ensures Good(Tasks.DelayFor(k, ticks)) && DelayedUntil(Tasks.DelayFor(k, ticks), k.current, Now(k).T + ticks)
  {
    var w' := DelayKeepsInv(Now(k), ticks);
    IsNow(w');
  }

  lemma DelaysUntilNext(w: GoodWorld, since: nat, increment: nat) returns (w': World)
    requires IsReady(w.k, w.k.current) && w.k.current != w.k.idle
    requires 0 < increment < w.k.period && since <= w.T < since + w.k.period
    ensures Inv(w') && w'.k == Tasks.DelayUntil(w.k, since % w.k.period, increment)
    ensures if w.T < since + increment then IsDelayed(w'.k, w.k.current) && Due(w', w.k.current) == since + increment else w' == w
  {
    TickIsWrappedTime(w);
    DelayUntilIsExact(w.k, w.T, since, increment);
    w' := w;
    if w.T < since + increment {
      w' := DelayKeepsInv(w, since + increment - w.T);
    }
  }

  lemma DelayedUntilNext(k: Kernel, since: nat, increment: nat)
    requires Good(k) && IsReady(k, k.current) && k.current != k.idle
    requires 0 < increment < k.period && since <= Now(k).T < since + k.period
    ensures var k' := Tasks.DelayUntil(k, since % k.period, increment);
      Good(k') && if Now(k).T < since + increment then DelayedUntil(k', k.current, since + increment) else k' == k
  {
    var w' := DelaysUntilNext(Now(k), since, increment);
    IsNow(w');
  }

  /** The current task is on the list of event `e`, until `ticks` ticks have passed if it does not wait for ever. */
  ghost predicate WaitsForEvent(k: Kernel, k': Kernel, e: nat, ticks: nat, forever: bool) {
    && k.current in k'.ev.where && k'.ev.where[k.current] == Event(e)
    && (if forever then k.current in k'.gen.where && k'.gen.where[k.current] == Suspended
        else DelayedUntil(k', k.current, Now(k).T + ticks))
  }

  lemma BlockedOnEvent(k: Kernel, e: nat, ticks: nat)
    requires Good(k) && Allowed(k, BlockCurrent(e, ticks))
    ensures var k' := Tasks.PlaceOnEventList(k, e, ticks);
      Good(k') && WaitsForEvent(k, k', e, ticks, ticks == k.period - 1)
  {
    var w' := BlockKeepsInv(Now(k), e, ticks);
    IsNow(w');
  }

  lemma BlockedRestricted(k: Kernel, e: nat, ticks: nat, at: nat)
    requires at <= |k.ev.At(Event(e))|
    requires Good(k) && Allowed(k, Op.BlockRestricted(e, ticks, at))
    ensures var k' := PlaceRestricted(k, e, ticks, at);
      Good(k') && WaitsForEvent(k, k', e, ticks, false)
  {
    var w' := BlockRestrictedKeepsInv(Now(k), e, ticks, at);
    IsNow(w');
  }

  /** Task `t` is where a step put it and waits for no event, unless it is held until the scheduler resumes. */
  ghost predicate PutOn(k: Kernel, t: Task, place: Place) {
    t in k.gen.where && k.gen.where[t] == place && t !in k.ev.where
  }

  ghost predicate HeldBack(k: Kernel, t: Task) {
    t in k.ev.where && k.ev.where[t] == Pending
  }

  /** It is ready, or will be when the scheduler resumes. */
  ghost predicate Readied(k: Kernel, k': Kernel, t: Task) {
    if k.suspended == 0 then PutOn(k', t, Ready(Get(k.prio, t))) else HeldBack(k', t)
  }

  lemma Signalled(k: Kernel, e: nat)
    requires Good(k) && k.ev.At(Event(e)) != []
    ensures var t := k.ev.At(Event(e))[0];
      var k' := SignalEvent(k, e);
      Good(k') && Readied(k, k', t)
  {
    var w' := SignalKeepsInv(Now(k), e);
    IsNow(w');
  }

  lemma ResumedNested(k: Kernel)
    requires Consistent(k.gen) && Consistent(k.ev) && k.suspended > 0
    ensures var k' := Tasks.ResumeAll(k);
      && k'.suspended == k.suspended - 1 && (k.suspended > 1 ==> k' == k.(suspended := k.suspended - 1))
      && (Good(k) ==> Good(k') && (k.suspended == 1 ==> !k'.missedYield && k'.missed == 0 && k'.ev.At(Pending) == []))
  {
    ResumeKeepsRest(k);
    if Good(k) {
      SomeTaskExists(k);
      StepsStayGood(k, ResumeScheduler);
    }
  }

  lemma SuspendedNow(k: Kernel, t: Task)
    requires Good(k) && Allowed(k, SuspendOther(t))
    ensures Good(Tasks.SuspendTask(k, t)) && PutOn(Tasks.SuspendTask(k, t), t, Suspended)
  {
    var w' := SuspendTaskKeepsInv(Now(k), t);
    IsNow(w');
  }

  lemma DeletedNow(k: Kernel, t: Task)
    requires Good(k) && Allowed(k, Op.DeleteTask(t))
    ensures Good(Delete(k, t)) && PutOn(Delete(k, t), t, Terminating)
  {
    var w' := DeleteKeepsInv(Now(k), t);
    IsNow(w');
  }

  lemma ResumedNow(k: Kernel, t: Task)
    requires Good(k)
    ensures var k' := Tasks.ResumeTask(k, t);
      Good(k') && if t != k.current && IsSuspended(k, t) then PutOn(k', t, Ready(Get(k.prio, t))) else k' == k
  {
    var w' := ResumeTaskKeepsInv(Now(k), t);
    IsNow(w');
  }

  lemma ResumedByInterrupt(k: Kernel, t: Task)
    requires Good(k)
    ensures var k' := Tasks.ResumeFromISR(k, t);
      Good(k') && if IsSuspended(k, t) then Readied(k, k', t) else k' == k
  {
    var w' := ResumeFromISRKeepsInv(Now(k), t);
    IsNow(w');
  }

  lemma CreatedNow(k: Kernel, t: Task, priority: nat)
    requires Good(k) && t !in k.prio
    ensures var k' := Create(k, t, priority); Good(k') && PutOn(k', t, Ready(Least(priority, k.levels - 1)))
  {
    var w' := CreateKeepsInv(Now(k), t, priority);
    IsNow(w');
    assert t !in k.gen.where;
  }

  lemma InheritedNow(k: Kernel, holder: Task)
    requires Good(k) && holder in k.prio
    ensures var k' := Inherit(k, holder);
      Good(k') && Get(k'.prio, holder) >= Get(k.prio, k.current) && Get(k'.prio, holder) >= Get(k.prio, holder)
  {
    var w' := InheritKeepsInv(Now(k), holder);
    IsNow(w');
  }

  lemma DisinheritedNow(k: Kernel, holder: Task)
    requires Good(k) && Allowed(k, DisinheritBy(holder))
    ensures var k' := Disinherit(k, holder); Good(k') && Get(k'.prio, holder) == Get(k.base, holder)
  {
    var w' := DisinheritKeepsInv(Now(k), holder);
    IsNow(w');
  }

  lemma PrioritySetNow(k: Kernel, t: Task, priority: nat)
    requires Good(k) && t in k.prio
    ensures var k' := SetPriority(k, t, priority);
      && Good(k') && Get(k'.base, t) == Least(priority, k.levels - 1)
      && Get(k'.prio, t) == if Get(k.prio, t) == Get(k.base, t) then Least(priority, k.levels - 1) else Get(k.prio, t)
  {
    var w' := SetPriorityKeepsInv(Now(k), t, priority);
    IsNow(w');
    assert t in k.gen.where;
  }

  lemma ReapedNow(k: Kernel)
    requires Good(k) && k.gen.At(Terminating) != []
    ensures k.tasks > 0 && k.deleted > 0 && Good(Reap(k)) && k.gen.At(Terminating)[0] !in Reap(k).gen.where
  {
    var w' := ReapKeepsInv(Now(k));
    IsNow(w');
  }

  lemma ReapedIfAny(k: Kernel)
    requires Good(k)
    ensures k.deleted == |k.gen.At(Terminating)| <= k.tasks
    ensures k.deleted > 0 ==> Good(Reap(k)) && |Reap(k).gen.At(Terminating)| == k.deleted - 1
  {
    if k.gen.At(Terminating) != [] {
      ReapedNow(k);
      UnlinkIsConsistent(k.gen, k.gen.At(Terminating)[0]);
    }
    DeletedAreTasks(k);
  }

  lemma DeletedAreTasks(k: Kernel)
    requires Placed(k) && Counted(k)
    ensures |k.gen.At(Terminating)| <= k.tasks
  {
    var s := k.gen.At(Terminating);
    NoDupSet(s);
    var members := set t | t in s;
    forall t | t in members ensures t in k.prio.Keys {
      assert t in k.gen.where;
    }
    SubsetIsSmaller(members, k.prio.Keys);
  }

  lemma SubsetIsSmaller(a: set<Task>, b: set<Task>)
    requires a <= b
    ensures |a| <= |b|
  {
    assert b == a + (b - a);
  }

  class Scheduler {
    const period: Period
    const levels: Levels
    const idle: Task
    var gen: Lists<Place>
    var ev: Lists<EventPlace>
    var prio: map<Task, nat>
    var base: map<Task, nat>
    var evVal: map<Task, nat>
    var wake: map<Task, nat>
    var active: bool
    var tick: nat
    var overflows: nat
    var nextUnblock: nat
    var top: nat
    var suspended: nat
    var missed: nat
    var missedYield: bool
    var current: Task
    var tasks: nat
    var deleted: nat

    ghost function State(): Kernel
      reads this
    {
      Kernel(period, levels, gen, ev, prio, base, evVal, wake, active, tick, overflows, nextUnblock, top,
             suspended, missed, missedYield, current, idle, tasks, deleted)
    }

    /** Every invariant of the scheduler holds. */
    ghost predicate Valid()
      reads this
    {
      Good(State())
    }

    /** prvAddTaskToReadyQueue */
    method AddTaskToReadyQueue(t: Task)
      modifies `gen, `top
      ensures gen == PutEnd(old(gen), Ready(Get(prio, t)), t)
      ensures top == if Get(prio, t) > old(top) then Get(prio, t) else old(top)
    {
      if Get(prio, t) > top {
        top := Get(prio, t);
      }
      gen := PutEnd(gen, Ready(Get(prio, t)), t);
    }

    /** Unlinking a task from its delay list, and its event list if it is on one, and readying it. */
    method Wake(t: Task)
      modifies `gen, `ev, `top
      ensures State() == WakeTask(old(State()), t)
    {
      gen := Unlink(gen, t);
      if t in ev.where {
        ev := Unlink(ev, t);
      }
      AddTaskToReadyQueue(t);
    }

    /** prvCheckDelayedTasks */
    method CheckDelayedTasks()
      requires Consistent(gen)
      modifies `gen, `ev, `top, `nextUnblock
      ensures State() == old(if tick >= nextUnblock then Scan(State()) else State())
    {
      if tick < nextUnblock {
        return;
      }
      ghost var goal := Scan(State());
      while true
        invariant Consistent(gen) && Scan(State()) == goal
        decreases |Delayed(State())|
      {
        var list := gen.At(Delay(active));
        if list == [] {
          nextUnblock := period - 1;
          return;
        }
        if tick < Get(wake, list[0]) {
          nextUnblock := Get(wake, list[0]);
          return;
        }
        ScanWakesHead(State());
        Wake(list[0]);
      }
    }

    method AdvanceTick()
      modifies `tick, `active, `overflows, `nextUnblock
      ensures State() == Advance(old(State()))
    {
      tick := (tick + 1) % period;
      if tick == 0 {
        active := !active;
        overflows := overflows + 1;
        var list := gen.At(Delay(active));
        nextUnblock := if list == [] then period - 1 else Get(wake, list[0]);
      }
    }

    /** vTaskIncrementTick */
    method IncrementTick()
      requires Consistent(gen)
      modifies this
      ensures State() == Tasks.IncrementTick(old(State()))
    {
      if suspended == 0 {
        AdvanceTick();
        CheckDelayedTasks();
      } else {
        missed := missed + 1;
      }
    }

    /** vTaskSuspendAll, which nests. */
    method SuspendAll()
      modifies `suspended
      ensures State() == Tasks.SuspendAll(old(State())) && suspended == old(suspended) + 1
      ensures old(Valid()) ==> Valid()
    {
      ghost var k := State();
      suspended := suspended + 1;
      if Good(k) {
        StepsStayGood(k, SuspendScheduler);
      }
    }

    /** The loop of xTaskResumeAll that empties xPendingReadyList; `higher` says whether a task at least as
        urgent as the current one was readied. */
    method DrainPendingReady() returns (higher: bool)
      requires Consistent(gen) && Consistent(ev)
      modifies `gen, `ev, `top
      ensures State() == DrainPending(old(State()))
      ensures higher <==> exists t :: t in old(ev.At(Pending)) && Get(prio, t) >= Get(prio, current)
    {
      ghost var goal, all := DrainPending(State()), ev.At(Pending);
      higher := false;
      while ev.At(Pending) != []
        invariant Consistent(gen) && Consistent(ev) && DrainPending(State()) == goal
        invariant (higher || exists t :: t in ev.At(Pending) && Get(prio, t) >= Get(prio, current)) <==>
                  exists t :: t in all && Get(prio, t) >= Get(prio, current)
        decreases |ev.At(Pending)|
      {
        var t := ev.At(Pending)[0];
        DrainWakesHead(State());
        Wake(t);
        if Get(prio, t) >= Get(prio, current) {
          higher := true;
        }
      }
    }

    method ReplayTick()
      requires Consistent(gen) && suspended == 0 && missed > 0
      modifies this
      ensures Consistent(gen) && suspended == 0 && missed == old(missed) - 1
      ensures ReplayTicks(State()) == old(ReplayTicks(State()))
    {
      ghost var next := ReplayOnce(State());
      IncrementTick();
      missed := missed - 1;
    }

    /** The loop of xTaskResumeAll that processes the missed ticks. */
    method ReplayMissedTicks()
      requires Consistent(gen) && suspended == 0
      modifies this
      ensures State() == ReplayTicks(old(State()))
    {
      while missed > 0
        invariant Consistent(gen) && suspended == 0 && ReplayTicks(State()) == old(ReplayTicks(State()))
        decreases missed
      {
        ReplayTick();
      }
    }

    /** What xTaskResumeAll does when the last suspension ends. */
    method CatchUp() returns (alreadyYielded: bool)
      requires Consistent(gen) && Consistent(ev) && suspended == 0
      modifies this
      ensures old(DrainPending(State()).suspended == 0 && Consistent(DrainPending(State()).gen))
      ensures State() == old(ReplayTicks(DrainPending(State()))).(missedYield := false)
      ensures alreadyYielded <==> old(YieldOnResume(State()))
    {
      DrainKeepsCounters(State());
      var yieldRequired := DrainPendingReady();
      if missed > 0 {
        yieldRequired := true;
        ReplayMissedTicks();
      }
      alreadyYielded := yieldRequired || missedYield;
      if alreadyYielded {
        missedYield := false;
      }
    }

    method Resume() returns (alreadyYielded: bool)
      requires Consistent(gen) && Consistent(ev) && suspended > 0
      modifies this
      ensures State() == Tasks.ResumeAll(old(State()))
      ensures alreadyYielded <==> old(suspended) == 1 && old(tasks) > 0 && old(YieldOnResume(State()))
    {
      alreadyYielded := false;
      suspended := suspended - 1;
      if suspended == 0 && tasks > 0 {
        alreadyYielded := CatchUp();
      }
    }

    /** xTaskResumeAll: nothing happens but at the end of the last suspension, and then all that was held back does. */
    method ResumeAll() returns (alreadyYielded: bool)
      requires Consistent(gen) && Consistent(ev) && suspended > 0
      modifies this
      ensures State() == Tasks.ResumeAll(old(State())) && suspended == old(suspended) - 1
      ensures alreadyYielded <==> old(suspended) == 1 && old(tasks) > 0 && old(YieldOnResume(State()))
      ensures suspended > 0 ==> State() == old(State()).(suspended := suspended)
      ensures old(Valid()) ==> Valid() && (suspended == 0 ==> !missedYield && missed == 0 && ev.At(Pending) == [])
    {
      ResumedNested(State());
      alreadyYielded := Resume();
    }

    /** vTaskSwitchContext: the search for the highest level with a ready task, and a step of its cursor; or, while the
        scheduler is suspended, a note that a switch was asked for. */
    method SwitchContext()
      requires suspended == 0 ==> gen.At(Ready(TopReady(gen, top))) != []
      modifies `missedYield, `top, `gen, `current
      ensures State() == old(Tasks.SwitchContext(State()))
      ensures suspended > 0 ==> missedYield && State() == old(State()).(missedYield := true)
      ensures suspended == 0 ==> missedYield == old(missedYield) && (forall l :: top < l <= old(top) ==> old(gen).At(Ready(l)) == [])
      ensures suspended == 0 ==> old(gen).At(Ready(top)) != [] && current == old(gen).At(Ready(top))[0]
    {
      if suspended != 0 {
        missedYield := true;
        return;
      }
      TopReadyIsHighest(gen, top);
      while gen.At(Ready(top)) == []
        invariant TopReady(gen, top) == old(TopReady(gen, top))
        invariant State() == old(State()).(top := top)
        decreases top
      {
        assert top != 0;
        top := top - 1;
      }
      var queue := gen.At(Ready(top));
      current := queue[0];
      gen := Lists(gen.seqs[Ready(top) := Rotate(queue)], gen.where);
    }

    /** prvAddCurrentTaskToDelayedList */
    method AddCurrentTaskToDelayedList(timeToWake: nat)
      modifies `wake, `gen, `nextUnblock
      ensures wake == old(wake)[current := timeToWake]
      ensures gen == PutSorted(old(gen), Delay(if timeToWake < tick then !active else active), current, wake)
      ensures nextUnblock == if tick <= timeToWake < old(nextUnblock) then timeToWake else old(nextUnblock)
    {
      wake := wake[current := timeToWake];
      if timeToWake < tick {
        gen := PutSorted(gen, Delay(!active), current, wake);
      } else {
        gen := PutSorted(gen, Delay(active), current, wake);
        if timeToWake < nextUnblock {
          nextUnblock := timeToWake;
        }
      }
    }

    /** vTaskDelay, between the suspension and the resumption of the scheduler. */
    method DelayFor(ticks: nat)
      modifies `gen, `wake, `nextUnblock
      ensures State() == Tasks.DelayFor(old(State()), ticks)
      ensures old(Valid() && Allowed(State(), DelayCurrent(ticks))) ==> Valid() && DelayedUntil(State(), current, old(Now(State()).T) + ticks)
    {
      ghost var k := State();
      var timeToWake := (tick + ticks) % period;
      gen := Unlink(gen, current);
      AddCurrentTaskToDelayedList(timeToWake);
      assert State() == Tasks.DelayFor(k, ticks);
      if Good(k) && Allowed(k, DelayCurrent(ticks)) {
        DelayedAtTicks(k, ticks);
      }
    }

    method WaitUntil(previousWakeTime: nat, increment: nat) returns (newPreviousWakeTime: nat)
      modifies `gen, `wake, `nextUnblock
      ensures State() == Tasks.DelayUntil(old(State()), previousWakeTime, increment)
      ensures newPreviousWakeTime == (previousWakeTime + increment) % period
    {
      var timeToWake := (previousWakeTime + increment) % period;
      var shouldDelay := false;
      if tick < previousWakeTime {
        if timeToWake < previousWakeTime && timeToWake > tick {
          shouldDelay := true;
        }
      } else {
        if timeToWake < previousWakeTime || timeToWake > tick {
          shouldDelay := true;
        }
      }
      newPreviousWakeTime := timeToWake;
      if shouldDelay {
        gen := Unlink(gen, current);
        AddCurrentTaskToDelayedList(timeToWake);
      }
    }

    /** vTaskDelayUntil, between the suspension and the resumption of the scheduler. `since` is the previous wake time
        on the unwrapped clock, less than a whole wrap ago. */
    method DelayUntil(previousWakeTime: nat, increment: nat, ghost since: nat) returns (newPreviousWakeTime: nat)
      requires Valid() && IsReady(State(), current) && current != idle && 0 < increment < period
      requires since <= Now(State()).T < since + period && previousWakeTime == since % period
      modifies `gen, `wake, `nextUnblock
      ensures newPreviousWakeTime == (previousWakeTime + increment) % period
      ensures Valid()
      ensures if old(Now(State()).T) < since + increment then DelayedUntil(State(), current, since + increment)
        else State() == old(State())
    {
      ghost var k := State();
      newPreviousWakeTime := WaitUntil(previousWakeTime, increment);
      DelayedUntilNext(k, since, increment);
    }

    method Block(e: nat, ticks: nat)
      modifies `ev, `gen, `wake, `nextUnblock
      ensures State() == Tasks.PlaceOnEventList(old(State()), e, ticks)
    {
      ev := PutSorted(ev, Event(e), current, evVal);
      if ticks == period - 1 {
        gen := Unlink(gen, current);
        gen := PutEnd(gen, Suspended, current);
      } else {
        DelayFor(ticks);
      }
    }

    /** vTaskPlaceOnEventList */
    method PlaceOnEventList(e: nat, ticks: nat)
      requires Valid() && Allowed(State(), BlockCurrent(e, ticks))
      modifies `ev, `gen, `wake, `nextUnblock
      ensures State() == Tasks.PlaceOnEventList(old(State()), e, ticks)
      ensures Valid() && WaitsForEvent(old(State()), State(), e, ticks, ticks == period - 1)
    {
      ghost var k := State();
      Block(e, ticks);
      BlockedOnEvent(k, e, ticks);
    }

    /** Readying a task, or holding it back while the scheduler is suspended. */
    method ReadyOrHold(t: Task)
      modifies `ev, `gen, `top
      ensures State() == old(if suspended == 0 then MoveToReady(State(), t) else State().(ev := PutEnd(ev, Pending, t)))
    {
      if suspended == 0 {
        gen := Unlink(gen, t);
        AddTaskToReadyQueue(t);
      } else {
        ev := PutEnd(ev, Pending, t);
      }
    }

    method Signal(e: nat) returns (higher: bool)
      requires ev.At(Event(e)) != []
      modifies `ev, `gen, `top
      ensures State() == SignalEvent(old(State()), e)
      ensures higher <==> old(Get(prio, ev.At(Event(e))[0]) >= Get(prio, current))
    {
      var t := ev.At(Event(e))[0];
      ev := Unlink(ev, t);
      ReadyOrHold(t);
      higher := Get(prio, t) >= Get(prio, current);
    }

    /** xTaskRemoveFromEventList */
    method RemoveFromEventList(e: nat) returns (higher: bool)
      requires Valid() && ev.At(Event(e)) != []
      modifies `ev, `gen, `top
      ensures State() == SignalEvent(old(State()), e)
      ensures higher <==> old(Get(prio, ev.At(Event(e))[0]) >= Get(prio, current))
      ensures Valid() && Readied(old(State()), State(), old(ev.At(Event(e))[0]))
    {
      ghost var k := State();
      higher := Signal(e);
      Signalled(k, e);
    }

    /** Taking a task off its list, and off its event list if it is on one. */
    method UnlinkBoth(t: Task)
      modifies `gen, `ev
      ensures State() == old(State()).(gen := Unlink(old(gen), t), ev := Unlink(old(ev), t))
    {
      gen := Unlink(gen, t);
      if t in ev.where {
        ev := Unlink(ev, t);
      }
    }

    /** vTaskSuspend */
    method SuspendTask(t: Task)
      requires Valid() && Allowed(State(), SuspendOther(t))
      modifies `gen, `ev
      ensures State() == Tasks.SuspendTask(old(State()), t)
      ensures Valid() && PutOn(State(), t, Suspended)
    {
      ghost var k := State();
      UnlinkBoth(t);
      gen := PutEnd(gen, Suspended, t);
      assert State() == Tasks.SuspendTask(k, t);
      SuspendedNow(k, t);
    }

    method Unsuspend(t: Task)
      modifies `gen, `top
      ensures State() == Tasks.ResumeTask(old(State()), t)
    {
      if t != current && t in gen.where && gen.where[t] == Suspended && t !in ev.where {
        gen := Unlink(gen, t);
        AddTaskToReadyQueue(t);
      }
    }

    /** vTaskResume */
    method ResumeTask(t: Task)
      requires Valid()
      modifies `gen, `top
      ensures State() == Tasks.ResumeTask(old(State()), t)
      ensures Valid() && (if old(t != current && IsSuspended(State(), t)) then PutOn(State(), t, Ready(Get(prio, t))) else State() == old(State()))
    {
      ghost var k := State();
      Unsuspend(t);
      ResumedNow(k, t);
    }

    method Terminate(t: Task)
      modifies `gen, `ev, `deleted
      ensures State() == Delete(old(State()), t)
    {
      UnlinkBoth(t);
      gen := PutEnd(gen, Terminating, t);
      deleted := deleted + 1;
    }

    /** vTaskDelete */
    method DeleteTask(t: Task)
      requires Valid() && Allowed(State(), Op.DeleteTask(t))
      modifies `gen, `ev, `deleted
      ensures State() == Delete(old(State()), t)
      ensures Valid() && PutOn(State(), t, Terminating)
    {
      ghost var k := State();
      Terminate(t);
      DeletedNow(k, t);
    }

    /** Gives a task a priority, and its event item the matching value, before it moves. */
    method Reprice(t: Task, p: nat)
      modifies `evVal, `prio
      ensures State() == old(State()).(prio := old(prio)[t := p], evVal := old(evVal)[t := EventValue(State(), p)])
    {
      prio := prio[t := p];
      evVal := evVal[t := if p <= levels then levels - p else 0];
    }

    method MakeReady(t: Task)
      modifies `gen, `top
      ensures State() == MoveToReady(old(State()), t)
    {
      gen := Unlink(gen, t);
      AddTaskToReadyQueue(t);
    }

    /** vTaskPriorityInherit */
    method PriorityInherit(holder: Task)
      requires Valid() && holder in prio
      modifies `evVal, `prio, `gen, `top
      ensures State() == Inherit(old(State()), holder)
      ensures Valid() && old(Get(prio, current)) <= Get(prio, holder) && old(Get(prio, holder)) <= Get(prio, holder)
    {
      ghost var k := State();
      if Get(prio, holder) < Get(prio, current) {
        var wasReady := holder in gen.where && gen.where[holder] == Ready(Get(prio, holder));
        Reprice(holder, Get(prio, current));
        if wasReady {
          MakeReady(holder);
        }
      }
      assert State() == Inherit(k, holder);
      InheritedNow(k, holder);
    }

    /** vTaskPriorityDisinherit */
    method PriorityDisinherit(holder: Task)
      requires Valid() && Allowed(State(), DisinheritBy(holder))
      modifies `evVal, `prio, `gen, `top
      ensures State() == Disinherit(old(State()), holder)
      ensures Valid() && Get(prio, holder) == Get(base, holder)
    {
      ghost var k := State();
      if Get(prio, holder) != Get(base, holder) {
        Reprice(holder, Get(base, holder));
        MakeReady(holder);
      }
      assert State() == Disinherit(k, holder);
      DisinheritedNow(k, holder);
    }

    /** A new base priority, which the task runs at unless it has inherited another. */
    method Rebase(t: Task, p: nat)
      modifies `evVal, `prio, `base
      ensures State() == old(State()).(prio := if Get(old(prio), t) == Get(old(base), t) then old(prio)[t := p] else old(prio),
                                       base := old(base)[t := p], evVal := old(evVal)[t := EventValue(State(), p)])
    {
      if Get(prio, t) == Get(base, t) {
        prio := prio[t := p];
      }
      base := base[t := p];
      evVal := evVal[t := if p <= levels then levels - p else 0];
    }

    method ChangePriority(t: Task, priority: nat)
      modifies `evVal, `prio, `base, `gen, `top
      ensures State() == SetPriority(old(State()), t, priority)
    {
      var p := if priority >= levels then levels - 1 else priority;
      var was := Get(base, t);
      if p != was {
        Rebase(t, p);
        if t in gen.where && gen.where[t] == Ready(was) {
          MakeReady(t);
        }
      }
    }

    /** vTaskPrioritySet */
    method PrioritySet(t: Task, priority: nat)
      requires Valid() && t in prio
      modifies `evVal, `prio, `base, `gen, `top
      ensures State() == SetPriority(old(State()), t, priority)
      ensures Valid() && Get(base, t) == Least(priority, levels - 1)
      ensures Get(prio, t) == if old(Get(prio, t) == Get(base, t)) then Least(priority, levels - 1) else old(Get(prio, t))
    {
      ghost var k := State();
      ChangePriority(t, priority);
      PrioritySetNow(k, t, priority);
    }

    method AddNewTask(t: Task, priority: nat)
      modifies `evVal, `prio, `base, `gen, `top, `tasks
      ensures State() == Create(old(State()), t, priority)
    {
      var p := if priority >= levels then levels - 1 else priority;
      tasks := tasks + 1;
      base := base[t := p];
      Reprice(t, p);
      MakeReady(t);
    }

    /** The critical section of xTaskGenericCreate. */
    method CreateTask(t: Task, priority: nat)
      requires Valid() && t !in prio
      modifies `evVal, `prio, `base, `gen, `top, `tasks
      ensures State() == Create(old(State()), t, priority)
      ensures Valid() && PutOn(State(), t, Ready(Least(priority, levels - 1)))
    {
      ghost var k := State();
      AddNewTask(t, priority);
      CreatedNow(k, t, priority);
    }

    /** vTaskPlaceOnEventListRestricted */
    method PlaceOnEventListRestricted(e: nat, ticks: nat, at: nat)
      requires Valid() && Allowed(State(), Op.BlockRestricted(e, ticks, at)) && at <= |ev.At(Event(e))|
      modifies `ev, `gen, `wake, `nextUnblock
      ensures State() == PlaceRestricted(old(State()), e, ticks, at)
      ensures Valid() && WaitsForEvent(old(State()), State(), e, ticks, false)
    {
      ghost var k := State();
      ev := Put(ev, Event(e), at, current);
      DelayFor(ticks);
      assert State() == PlaceRestricted(k, e, ticks, at);
      BlockedRestricted(k, e, ticks, at);
    }

    /** xTaskResumeFromISR */
    method ResumeFromISR(t: Task) returns (yieldRequired: bool)
      requires Valid()
      modifies `gen, `top, `ev
      ensures State() == Tasks.ResumeFromISR(old(State()), t)
      ensures yieldRequired <==> old(IsSuspended(State(), t) && suspended == 0 && Get(prio, t) >= Get(prio, current))
      ensures Valid() && (if old(IsSuspended(State(), t)) then Readied(old(State()), State(), t) else State() == old(State()))
    {
      ghost var k := State();
      yieldRequired := false;
      if t in gen.where && gen.where[t] == Suspended && t !in ev.where {
        if suspended == 0 {
          yieldRequired := Get(prio, t) >= Get(prio, current);
          MakeReady(t);
        } else {
          ev := PutEnd(ev, Pending, t);
        }
      }
      assert State() == Tasks.ResumeFromISR(k, t);
      ResumedByInterrupt(k, t);
    }

    method FreeOne()
      requires deleted == |gen.At(Terminating)| <= tasks && deleted > 0
      modifies `gen, `tasks, `deleted, `prio, `base, `evVal
      ensures State() == Reap(old(State()))
    {
      var t := gen.At(Terminating)[0];
      gen := Unlink(gen, t);
      tasks := tasks - 1;
      deleted := deleted - 1;
      prio, base, evVal := prio - {t}, base - {t}, evVal - {t};
    }

    /** prvCheckTasksWaitingTermination */
    method CheckTasksWaitingTermination()
      requires Valid()
      modifies `gen, `tasks, `deleted, `prio, `base, `evVal
      ensures State() == if old(deleted) > 0 then Reap(old(State())) else old(State())
      ensures Valid() && |gen.At(Terminating)| == if old(deleted) > 0 then old(deleted) - 1 else 0
    {
      ReapedIfAny(State());
      if deleted > 0 {
        FreeOne();
      }
    }
  }
}
