/** tasks.c: the scheduler's lists, priorities and clocks, and every step that changes them.
    Each function is one critical section, one interrupt, or one stretch run with the scheduler suspended. */
module Tasks {
  import opened Sequences
  import opened Containers
  import opened Ticks

  /** The lists a task's generic item can be on. `Delay(active)` is the list pxDelayedTaskList names. */
  datatype Place = Ready(level: nat) | Delay(which: bool) | Suspended | Terminating

  /** The lists a task's event item can be on. */
  datatype EventPlace = Event(id: nat) | Pending

  type Levels = n: nat | 1 <= n witness 1

  datatype Kernel = Kernel(
    period: Period,               // the tick counter counts modulo this
    levels: Levels,               // configMAX_PRIORITIES
    gen: Lists<Place>,            // generic items; ready lists are in cursor order
    ev: Lists<EventPlace>,        // event items
    prio: map<Task, nat>,
    base: map<Task, nat>,
    evVal: map<Task, nat>,        // xItemValue of the event items
    wake: map<Task, nat>,         // xItemValue of the generic items
    active: bool,
    tick: nat,
    overflows: nat,
    nextUnblock: nat,
    top: nat,                     // uxTopReadyPriority
    suspended: nat,               // uxSchedulerSuspended
    missed: nat,                  // uxMissedTicks
    missedYield: bool,
    current: Task,
    idle: Task,                   // the idle task, which never blocks
    tasks: nat,                   // uxCurrentNumberOfTasks
    deleted: nat)                 // uxTasksDeleted

  function PutSorted<L(==)>(m: Lists<L>, l: L, t: Task, keys: map<Task, nat>): Lists<L> {
    Put(m, l, InsertPos(Keys(m.At(l), keys), Get(keys, t)), t)
  }

  function MaxDelay(k: Kernel): nat {
    k.period - 1
  }

  function EventValue(k: Kernel, p: nat): nat {
    if p <= k.levels then k.levels - p else 0
  }

  function Cap(k: Kernel, p: nat): nat {
    if p >= k.levels then k.levels - 1 else p
  }

  function Delayed(k: Kernel): seq<Task> {
    k.gen.At(Delay(k.active))
  }

  // ---- Pieces shared by several steps ----

  /** prvAddTaskToReadyQueue, after unlinking the task from wherever it was. */
  function MoveToReady(k: Kernel, t: Task): Kernel {
    var p := Get(k.prio, t);
    k.(top := if p > k.top then p else k.top, gen := PutEnd(Unlink(k.gen, t), Ready(p), t))
  }

  /** prvAddCurrentTaskToDelayedList, after unlinking the current task from its ready list. */
  function MoveToDelayed(k: Kernel, timeToWake: nat): Kernel {
    var wake := k.wake[k.current := timeToWake];
    var gen := Unlink(k.gen, k.current);
    if timeToWake < k.tick then
      k.(wake := wake, gen := PutSorted(gen, Delay(!k.active), k.current, wake))
    else
      k.(wake := wake, gen := PutSorted(gen, Delay(k.active), k.current, wake),
         nextUnblock := if timeToWake < k.nextUnblock then timeToWake else k.nextUnblock)
  }

  function MoveTo(k: Kernel, t: Task, l: Place): Kernel {
    k.(gen := PutEnd(Unlink(k.gen, t), l, t))
  }

  /** xTaskIsTaskSuspended */
  predicate IsSuspended(k: Kernel, t: Task) {
    t in k.gen.where && k.gen.where[t] == Suspended && t !in k.ev.where
  }

  lemma MovedIsConsistent(m: Lists<Place>, t: Task, l: Place, i: nat)
    requires Consistent(m) && i <= |Unlink(m, t).At(l)|
    ensures Consistent(Put(Unlink(m, t), l, i, t))
    ensures Put(Unlink(m, t), l, i, t).where == m.where[t := l]
    ensures forall l' :: l' != l ==> Put(Unlink(m, t), l, i, t).At(l') == if t in m.At(l') then Without(m.At(l'), t) else m.At(l')
    ensures Put(Unlink(m, t), l, i, t).At(l) == InsertAt(if t in m.At(l) then Without(m.At(l), t) else m.At(l), i, t)
  {
    UnlinkIsConsistent(m, t);
    PutBack(m, Unlink(m, t), t, l, i);
  }

  lemma PutBack(m: Lists<Place>, u: Lists<Place>, t: Task, l: Place, i: nat)
    requires Consistent(u) && u.where == m.where - {t} && i <= |u.At(l)|
    ensures Consistent(Put(u, l, i, t)) && Put(u, l, i, t).where == m.where[t := l]
    ensures forall l' :: l' != l ==> Put(u, l, i, t).At(l') == u.At(l')
    ensures Put(u, l, i, t).At(l) == InsertAt(u.At(l), i, t)
  {
    PutIsConsistent(u, l, i, t);
    assert (m.where - {t})[t := l] == m.where[t := l];
  }

  // ---- Time ----

  function WakeTask(k: Kernel, t: Task): Kernel {
    MoveToReady(k.(ev := Unlink(k.ev, t)), t)
  }

  /** The loop of prvCheckDelayedTasks. */
  ghost function Scan(k: Kernel): (k': Kernel)
    requires Consistent(k.gen)
    ensures Consistent(k'.gen)
    decreases |Delayed(k)|
  {
    var list := Delayed(k);
    if list == [] then
      k.(nextUnblock := MaxDelay(k))
    else if k.tick < Get(k.wake, list[0]) then
      k.(nextUnblock := Get(k.wake, list[0]))
    else
      MovedIsConsistent(k.gen, list[0], Ready(Get(k.prio, list[0])), |Unlink(k.gen, list[0]).At(Ready(Get(k.prio, list[0])))|);
      Scan(WakeTask(k, list[0]))
  }

  /** The list swap when the tick counter wraps. */
  function SwapLists(k: Kernel): Kernel {
    var list := k.gen.At(Delay(!k.active));
    k.(active := !k.active, overflows := k.overflows + 1,
       nextUnblock := if list == [] then MaxDelay(k) else Get(k.wake, list[0]))
  }

  function Advance(k: Kernel): Kernel {
    var tick := (k.tick + 1) % k.period;
    if tick == 0 then SwapLists(k.(tick := tick)) else k.(tick := tick)
  }

  /** vTaskIncrementTick */
  ghost function IncrementTick(k: Kernel): (k': Kernel)
    requires Consistent(k.gen)
    ensures Consistent(k'.gen)
  {
    if k.suspended != 0 then k.(missed := k.missed + 1)
    else
      var a := Advance(k);
      if a.tick >= a.nextUnblock then Scan(a) else a
  }

  // ---- Blocking ----

  /** The suspended stretch of vTaskDelay. */
  function DelayFor(k: Kernel, ticks: nat): Kernel {
    MoveToDelayed(k, (k.tick + ticks) % k.period)
  }

  /** The test of vTaskDelayUntil on wrapped times, where `wake` is the wrapped sum of `previous` and the increment. */
  predicate ShouldDelay(previous: nat, wake: nat, tick: nat) {
    if tick < previous then wake < previous && wake > tick
    else wake < previous || wake > tick
  }

  /** The suspended stretch of vTaskDelayUntil. */
  function DelayUntil(k: Kernel, previous: nat, increment: nat): Kernel {
    var wake := (previous + increment) % k.period;
    if ShouldDelay(previous, wake, k.tick) then MoveToDelayed(k, wake) else k
  }

  /** vTaskPlaceOnEventList */
  function PlaceOnEventList(k: Kernel, e: nat, ticks: nat): Kernel {
    var k1 := k.(ev := PutSorted(k.ev, Event(e), k.current, k.evVal));
    if ticks == MaxDelay(k) then MoveTo(k1, k.current, Suspended)
    else DelayFor(k1, ticks)
  }

  /** vTaskPlaceOnEventListRestricted; `at` is the place the cursor of the event list gives. */
  function PlaceRestricted(k: Kernel, e: nat, ticks: nat, at: nat): Kernel
    requires at <= |k.ev.At(Event(e))|
  {
    DelayFor(k.(ev := Put(k.ev, Event(e), at, k.current)), ticks)
  }

  /** xTaskRemoveFromEventList */
  function SignalEvent(k: Kernel, e: nat): Kernel
    requires k.ev.At(Event(e)) != []
  {
    var t := k.ev.At(Event(e))[0];
    var k1 := k.(ev := Unlink(k.ev, t));
    if k.suspended == 0 then MoveToReady(k1, t)
    else k1.(ev := PutEnd(k1.ev, Pending, t))
  }

  // ---- Suspending the scheduler ----

  /** The loop of xTaskResumeAll over xPendingReadyList. */
  ghost function DrainPending(k: Kernel): (k': Kernel)
    requires Consistent(k.ev) && Consistent(k.gen)
    ensures Consistent(k'.ev) && Consistent(k'.gen)
    decreases |k.ev.At(Pending)|
  {
    if k.ev.At(Pending) == [] then k
    else
      var t := k.ev.At(Pending)[0];
      UnlinkIsConsistent(k.ev, t);
      MovedIsConsistent(k.gen, t, Ready(Get(k.prio, t)), |Unlink(k.gen, t).At(Ready(Get(k.prio, t)))|);
      DrainPending(WakeTask(k, t))
  }

  /** The loop of xTaskResumeAll over the missed ticks. */
  ghost function ReplayTicks(k: Kernel): (k': Kernel)
    requires Consistent(k.gen) && k.suspended == 0
    ensures Consistent(k'.gen)
    decreases k.missed
  {
    if k.missed == 0 then k
    else
      TickKeepsCounters(k);
      ReplayTicks(IncrementTick(k).(missed := k.missed - 1))
  }

  lemma ScanKeepsCounters(k: Kernel)
    requires Consistent(k.gen)
    ensures Scan(k).missed == k.missed && Scan(k).suspended == k.suspended
    decreases |Delayed(k)|
  {
    if Delayed(k) != [] && k.tick >= Get(k.wake, Delayed(k)[0]) {
      var t := Delayed(k)[0];
      MovedIsConsistent(k.gen, t, Ready(Get(k.prio, t)), |Unlink(k.gen, t).At(Ready(Get(k.prio, t)))|);
      ScanKeepsCounters(WakeTask(k, t));
    }
  }

  lemma TickKeepsCounters(k: Kernel)
    requires Consistent(k.gen) && k.suspended == 0
    ensures IncrementTick(k).missed == k.missed && IncrementTick(k).suspended == 0
  {
    ScanKeepsCounters(Advance(k));
  }

  function SuspendAll(k: Kernel): Kernel {
    k.(suspended := k.suspended + 1)
  }

  /** Whether xTaskResumeAll asks for a yield, and so clears the missed one. */
  ghost predicate YieldOnResume(k: Kernel) {
    || (exists t :: t in k.ev.At(Pending) && Get(k.prio, t) >= Get(k.prio, k.current))
    || k.missed > 0
    || k.missedYield
  }

  /** xTaskResumeAll */
  ghost function ResumeAll(k: Kernel): Kernel
    requires Consistent(k.gen) && Consistent(k.ev) && k.suspended > 0
  {
    var k1 := k.(suspended := k.suspended - 1);
    if k1.suspended > 0 || k.tasks == 0 then k1
    else
      DrainKeepsCounters(k1);
      ReplayTicks(DrainPending(k1)).(missedYield := false)
  }

  lemma DrainKeepsCounters(k: Kernel)
    requires Consistent(k.gen) && Consistent(k.ev)
    ensures DrainPending(k).suspended == k.suspended && DrainPending(k).missed == k.missed
    decreases |k.ev.At(Pending)|
  {
    if k.ev.At(Pending) != [] {
      var t := k.ev.At(Pending)[0];
      UnlinkIsConsistent(k.ev, t);
      MovedIsConsistent(k.gen, t, Ready(Get(k.prio, t)), |Unlink(k.gen, t).At(Ready(Get(k.prio, t)))|);
      DrainKeepsCounters(WakeTask(k, t));
    }
  }

  // ---- Task control ----

  /** The critical section of xTaskGenericCreate, once the scheduler runs. */
  function Create(k: Kernel, t: Task, priority: nat): Kernel {
    var p := Cap(k, priority);
    MoveToReady(k.(tasks := k.tasks + 1, prio := k.prio[t := p], base := k.base[t := p], evVal := k.evVal[t := EventValue(k, p)]), t)
  }

  /** vTaskSuspend */
  function SuspendTask(k: Kernel, t: Task): Kernel {
    MoveTo(k.(ev := Unlink(k.ev, t)), t, Suspended)
  }

  /** vTaskResume */
  function ResumeTask(k: Kernel, t: Task): Kernel {
    if t != k.current && IsSuspended(k, t) then MoveToReady(k, t) else k
  }

  /** xTaskResumeFromISR */
  function ResumeFromISR(k: Kernel, t: Task): Kernel {
    if !IsSuspended(k, t) then k
    else if k.suspended == 0 then MoveToReady(k, t)
    else k.(ev := PutEnd(k.ev, Pending, t))
  }

  /** vTaskDelete */
  function Delete(k: Kernel, t: Task): Kernel {
    MoveTo(k.(ev := Unlink(k.ev, t), deleted := k.deleted + 1), t, Terminating)
  }

  /** prvCheckTasksWaitingTermination, run by the idle task */
  function Reap(k: Kernel): Kernel
    requires k.gen.At(Terminating) != [] && k.tasks > 0 && k.deleted > 0
  {
    var t := k.gen.At(Terminating)[0];
    k.(gen := Unlink(k.gen, t), tasks := k.tasks - 1, deleted := k.deleted - 1,
       prio := k.prio - {t}, base := k.base - {t}, evVal := k.evVal - {t})
  }

  function TopReady(gen: Lists<Place>, p: nat): nat {
    if p == 0 || gen.At(Ready(p)) != [] then p else TopReady(gen, p - 1)
  }

  /** vTaskSwitchContext */
  function SwitchContext(k: Kernel): Kernel
    requires k.suspended == 0 ==> k.gen.At(Ready(TopReady(k.gen, k.top))) != []
  {
    if k.suspended != 0 then k.(missedYield := true)
    else
      var p := TopReady(k.gen, k.top);
      var queue := k.gen.At(Ready(p));
      k.(top := p, current := queue[0], gen := Lists(k.gen.seqs[Ready(p) := Rotate(queue)], k.gen.where))
  }

  // ---- Priorities ----

  predicate IsReady(k: Kernel, t: Task) {
    t in k.gen.where && k.gen.where[t].Ready?
  }

  /** vTaskPriorityInherit: the current task is about to wait for a mutex that `holder` holds. */
  function Inherit(k: Kernel, holder: Task): Kernel {
    var p := Get(k.prio, k.current);
    if Get(k.prio, holder) >= p then k
    else
      var k1 := k.(evVal := k.evVal[holder := EventValue(k, p)], prio := k.prio[holder := p]);
      if holder in k.gen.where && k.gen.where[holder] == Ready(Get(k.prio, holder)) then MoveToReady(k1, holder) else k1
  }

  /** vTaskPriorityDisinherit */
  function Disinherit(k: Kernel, holder: Task): Kernel {
    var p := Get(k.base, holder);
    if Get(k.prio, holder) == p then k
    else MoveToReady(k.(prio := k.prio[holder := p], evVal := k.evVal[holder := EventValue(k, p)]), holder)
  }

  /** vTaskPrioritySet */
  function SetPriority(k: Kernel, t: Task, priority: nat): Kernel {
    var p, was := Cap(k, priority), Get(k.base, t);
    if p == was then k
    else
      var k1 := k.(prio := if Get(k.prio, t) == was then k.prio[t := p] else k.prio,
                   base := k.base[t := p], evVal := k.evVal[t := EventValue(k, p)]);
      if t in k.gen.where && k.gen.where[t] == Ready(was) then MoveToReady(k1, t) else k1
  }
}
