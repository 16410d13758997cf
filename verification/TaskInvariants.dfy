/** Every run of the scheduler: what each step keeps, and when each delayed task wakes. */
module TaskInvariants {
  import opened Sequences
  import opened Containers
  import opened Tasks
  import opened Ticks

  /** A kernel state with its history: `T` is the tick count without wrapping, `epoch` the value of `T`
      at the last wrap, `interrupts` the number of tick interrupts since the scheduler started. */
  datatype World = World(k: Kernel, T: nat, epoch: nat, interrupts: nat)

  /** The history that goes with the counters of a kernel state. */
  ghost function WorldOf(k: Kernel, interrupts: nat): World {
    World(k, k.overflows * k.period + k.tick, k.overflows * k.period, interrupts)
  }

  ghost predicate IsDelayed(k: Kernel, t: Task) {
    t in k.gen.where && k.gen.where[t].Delay?
  }

  /** The unwrapped deadline of a delayed task: the current delay list holds deadlines of this epoch, the
      other one those of the next. */
  ghost function Due(w: World, t: Task): nat
    requires IsDelayed(w.k, t)
  {
    w.epoch + Get(w.k.wake, t) + if w.k.gen.where[t].which == w.k.active then 0 else w.k.period
  }

  // ---- What every step keeps ----

  /** Each live task's generic item is on exactly one list, the ready list of its priority if it is ready;
      its event item is on at most one, and only while the task is blocked or suspended. */
  ghost predicate Placed(k: Kernel) {
    Consistent(k.gen) && Consistent(k.ev) && Homed(k)
  }

  /** Placed, in terms of the container pointers alone. */
  ghost predicate Homed(k: Kernel) {
    && (forall t :: t in k.gen.where <==> t in k.prio)
    && (forall t :: t in k.gen.where <==> t in k.base)
    && (forall t :: t in k.gen.where ==> k.prio[t] < k.levels && k.base[t] < k.levels)
    && (forall t :: t in k.gen.where && k.gen.where[t].Ready? ==> k.gen.where[t].level == k.prio[t] <= k.top)
    && (forall t :: t in k.ev.where ==> t in k.gen.where && Blocked(k.gen.where[t]))
    && k.top < k.levels
    && IsReady(k, k.idle)
  }

  predicate Blocked(place: Place) {
    place.Delay? || place.Suspended?
  }

  ghost predicate Counted(k: Kernel) {
    && k.deleted == |k.gen.At(Terminating)|
    && k.tasks == |k.prio|
  }

  /** While the scheduler runs, no tick and no readied task is waiting for it to resume. */
  ghost predicate NothingHeld(k: Kernel) {
    k.suspended == 0 ==> k.missed == 0 && k.ev.At(Pending) == []
  }

  /** Both delay lists are in wake order, and no task on the current one wakes before xNextTaskUnblockTime. */
  ghost predicate Ordered(k: Kernel) {
    && (forall b :: Ascending(Keys(k.gen.At(Delay(b)), k.wake)))
    && (forall t :: t in Delayed(k) ==> k.nextUnblock <= Get(k.wake, t))
    && k.nextUnblock <= MaxDelay(k)
  }

  /** The wrapped counters stand for the unwrapped ones. */
  ghost predicate Clock(w: World) {
    && w.k.tick < w.k.period
    && w.T == w.epoch + w.k.tick
    && w.epoch == w.k.overflows * w.k.period
  }

  /** No tick interrupt is lost: those not counted yet are waiting in uxMissedTicks. */
  ghost predicate TicksKept(w: World) {
    w.T + w.k.missed == w.interrupts
  }

  ghost predicate Deadlines(w: World) {
    forall t :: IsDelayed(w.k, t) ==> Deadline(w, t)
  }

  ghost predicate Deadline(w: World, t: Task) {
    t in w.k.wake && w.k.wake[t] < w.k.period
  }

  /** No delayed task is overdue. A task that asked for zero ticks is due now and leaves at the next tick. */
  ghost predicate Pendent(w: World) {
    forall t :: IsDelayed(w.k, t) ==> w.T <= Due(w, t) && (Due(w, t) == w.T ==> w.k.tick + 1 < w.k.period)
  }

  ghost predicate Core(w: World) {
    Placed(w.k) && Counted(w.k) && Ordered(w.k) && Clock(w) && Deadlines(w)
  }

  ghost predicate Inv(w: World) {
    Core(w) && NothingHeld(w.k) && Pendent(w) && TicksKept(w)
  }

  // ---- Moving one task ----

  lemma ReadyKeepsPlaced(k: Kernel, t: Task)
    requires Consistent(k.gen) && t in k.prio
    ensures var k' := MoveToReady(k, t);
      && Consistent(k'.gen)
      && k'.gen.where == k.gen.where[t := Ready(k.prio[t])]
      && (forall l: Place :: !l.Ready? ==> k'.gen.At(l) == if t in k.gen.At(l) then Without(k.gen.At(l), t) else k.gen.At(l))
  {
    MovedIsConsistent(k.gen, t, Ready(k.prio[t]), |Unlink(k.gen, t).At(Ready(k.prio[t]))|);
  }

  lemma WithoutKeepsOrder(s: seq<Task>, t: Task, wake: map<Task, nat>)
    requires t in s && NoDup(s) && Ascending(Keys(s, wake))
    ensures Ascending(Keys(Without(s, t), wake))
    ensures forall u :: u in Without(s, t) ==> u in s
  {
    var i := IndexOf(s, t);
    WithoutMembers(s, t);
    WithoutAscending(Keys(s, wake), i);
    KeysOfWithout(s, t, wake);
  }

  /** `k'` is `k` after task `t` was moved to `place` and perhaps taken off its event list. */
  ghost predicate Moved(k: Kernel, k': Kernel, t: Task, place: Place) {
    && k' == k.(gen := k'.gen, ev := k'.ev, top := k'.top, deleted := k'.deleted)
    && Consistent(k'.gen) && Consistent(k'.ev)
    && k'.gen.where == k.gen.where[t := place]
    && k'.deleted == (if place.Terminating? then k.deleted + 1 else k.deleted)
    && (place.Terminating? ==> |k'.gen.At(Terminating)| == |k.gen.At(Terminating)| + 1)
    && (forall l: Place :: !l.Ready? && l != place ==>
          k'.gen.At(l) == if t in k.gen.At(l) then Without(k.gen.At(l), t) else k.gen.At(l))
    && k.top <= k'.top < k.levels
    && (place.Ready? ==> t in k.prio && place.level == k.prio[t] <= k'.top)
  }

  lemma MovedKeepsHomed(k: Kernel, k': Kernel, t: Task, place: Place)
    requires Homed(k) && t in k.gen.where
    requires k'.prio == k.prio && k'.base == k.base && k'.levels == k.levels && k'.idle == k.idle
    requires k'.gen.where == k.gen.where[t := place]
    requires k.top <= k'.top < k.levels
    requires place.Ready? ==> place.level == k.prio[t] <= k'.top
    requires forall u :: u in k'.ev.where ==> u in k.ev.where || u == t
    requires t in k'.ev.where ==> Blocked(place)
    requires t == k.idle ==> place.Ready?
    ensures Homed(k')
  {
  }

  /** Taking a task off the delay lists, or leaving them alone, keeps them ordered. */
  lemma MovedKeepsOrdered(k: Kernel, k': Kernel, t: Task, place: Place)
    requires Consistent(k.gen) && Ordered(k) && Moved(k, k', t, place) && !place.Delay?
    ensures Ordered(k')
  {
    forall b ensures Ascending(Keys(k'.gen.At(Delay(b)), k'.wake)) {
      if t in k.gen.At(Delay(b)) {
        WithoutKeepsOrder(k.gen.At(Delay(b)), t, k.wake);
      }
    }
    if t in Delayed(k) {
      WithoutKeepsOrder(Delayed(k), t, k.wake);
    }
  }

  /** Making a blocked or suspended task ready. */
  lemma WakeTaskMoves(k: Kernel, t: Task)
    requires Placed(k) && t in k.gen.where
    ensures Moved(k, WakeTask(k, t), t, Ready(k.prio[t]))
    ensures WakeTask(k, t).ev.where == k.ev.where - {t}
  {
    UnlinkIsConsistent(k.ev, t);
    ReadyKeepsPlaced(k.(ev := Unlink(k.ev, t)), t);
  }

  lemma MovedKeepsDeadlines(w: World, k': Kernel, t: Task, place: Place)
    requires Deadlines(w) && k'.gen.where == w.k.gen.where[t := place] && !place.Delay?
    requires k'.wake == w.k.wake && k'.active == w.k.active && k'.period == w.k.period
    ensures Deadlines(w.(k := k'))
  {
    forall u | IsDelayed(k', u) ensures Deadline(w.(k := k'), u) {
      assert Deadline(w, u);
    }
  }

  /** Steps after which no more tasks are delayed than before, on the same clock. */
  lemma FewerDelayed(w: World, w': World)
    requires Pendent(w)
    requires forall t :: IsDelayed(w'.k, t) ==> IsDelayed(w.k, t) && w'.k.gen.where[t] == w.k.gen.where[t]
    requires w'.k.wake == w.k.wake && w'.k.active == w.k.active && w'.k.period == w.k.period && w'.k.tick == w.k.tick
    requires w'.T == w.T && w'.epoch == w.epoch
    ensures Pendent(w')
    ensures forall t :: IsDelayed(w'.k, t) ==> Due(w', t) == Due(w, t)
  {
    forall t | IsDelayed(w'.k, t) ensures Due(w', t) == Due(w, t) {
      assert IsDelayed(w.k, t);
    }
  }

  lemma ReadiedKeepsCore(w: World, k': Kernel, t: Task)
    requires Core(w) && t in w.k.gen.where && !w.k.gen.where[t].Terminating?
    requires Moved(w.k, k', t, Ready(w.k.prio[t]))
    requires forall u :: u in k'.ev.where ==> u in w.k.ev.where && u != t
    ensures Core(w.(k := k'))
  {
    var place := Ready(w.k.prio[t]);
    MovedKeepsHomed(w.k, k', t, place);
    MovedKeepsOrdered(w.k, k', t, place);
    MovedKeepsDeadlines(w, k', t, place);
    assert t !in w.k.gen.At(Terminating);
  }

  // ---- The tick ----

  /** The delayed tasks whose wake time the tick counter has reached. */
  ghost predicate DueNow(k: Kernel, t: Task) {
    t in k.gen.where && k.gen.where[t] == Delay(k.active) && Get(k.wake, t) <= k.tick
  }

  /** `k'` is `k` after readying exactly the tasks that are due. */
  ghost predicate WokeDue(k: Kernel, k': Kernel) {
    && k' == k.(gen := k'.gen, ev := k'.ev, top := k'.top, nextUnblock := k'.nextUnblock)
    && (forall t :: t in k'.gen.where <==> t in k.gen.where)
    && (forall t :: DueNow(k, t) ==> t in k.prio && k'.gen.where[t] == Ready(k.prio[t]) && t !in k'.ev.where)
    && (forall t :: t in k.gen.where && !DueNow(k, t) ==> k'.gen.where[t] == k.gen.where[t])
    && (forall t :: !DueNow(k, t) ==> (t in k'.ev.where <==> t in k.ev.where))
    && (forall t :: t in k'.ev.where ==> t in k.ev.where && k'.ev.where[t] == k.ev.where[t])
  }

  lemma HeadIsEarliest(k: Kernel, t: Task)
    requires Consistent(k.gen) && Ordered(k) && t in Delayed(k)
    ensures Get(k.wake, Delayed(k)[0]) <= Get(k.wake, t)
  {
    var i :| 0 <= i < |Delayed(k)| && Delayed(k)[i] == t;
    assert Keys(Delayed(k), k.wake)[0] <= Keys(Delayed(k), k.wake)[i];
  }

  lemma WokeOneThenDue(k: Kernel, k1: Kernel, k2: Kernel, t: Task)
    requires t in k.prio && DueNow(k, t) && WokeDue(k1, k2)
    requires k1 == k.(gen := k1.gen, ev := k1.ev, top := k1.top)
    requires k1.gen.where == k.gen.where[t := Ready(k.prio[t])] && k1.ev.where == k.ev.where - {t}
    ensures WokeDue(k, k2)
  {
    assert forall u :: DueNow(k1, u) <==> DueNow(k, u) && u != t;
  }

  lemma NextUnblockKeepsCore(w: World, v: nat)
    requires Core(w) && v <= MaxDelay(w.k)
    requires forall t :: t in Delayed(w.k) ==> v <= Get(w.k.wake, t)
    ensures Core(w.(k := w.k.(nextUnblock := v)))
  {
    var w' := w.(k := w.k.(nextUnblock := v));
    forall t | IsDelayed(w'.k, t) ensures Deadline(w', t) {
      assert Deadline(w, t);
    }
    assert forall b :: w'.k.gen.At(Delay(b)) == w.k.gen.At(Delay(b));
  }

  lemma ScanStops(w: World)
    requires Core(w) && (Delayed(w.k) == [] || w.k.tick < Get(w.k.wake, Delayed(w.k)[0]))
    ensures Core(w.(k := Scan(w.k))) && WokeDue(w.k, Scan(w.k))
  {
    var k, list := w.k, Delayed(w.k);
    forall t | t in list ensures Get(k.wake, list[0]) <= Get(k.wake, t) {
      HeadIsEarliest(k, t);
    }
    if list != [] {
      assert list[0] in list && Deadline(w, list[0]);
    }
    NextUnblockKeepsCore(w, if list == [] then MaxDelay(k) else Get(k.wake, list[0]));
    assert forall t :: DueNow(k, t) ==> t in list;
  }

  /** The scan of prvCheckDelayedTasks readies the due tasks, all of them and no other. */
  lemma {:induction false} ScanWakesDue(w: World)
    requires Core(w)
    ensures Core(w.(k := Scan(w.k))) && WokeDue(w.k, Scan(w.k))
    decreases |Delayed(w.k)|
  {
    var k, list := w.k, Delayed(w.k);
    if list == [] || k.tick < Get(k.wake, list[0]) {
      ScanStops(w);
    } else {
      var t := list[0];
      assert t in list;
      WakeTaskMoves(k, t);
      ReadiedKeepsCore(w, WakeTask(k, t), t);
      ScanWakesDue(w.(k := WakeTask(k, t)));
      WokeOneThenDue(k, WakeTask(k, t), Scan(k), t);
    }
  }

  /** Skipping the scan before xNextTaskUnblockTime skips nothing: the scan would only restate the clock. */
  lemma SkippedScanIsIdle(k: Kernel)
    requires Consistent(k.gen) && Ordered(k) && k.tick < k.nextUnblock
    ensures Scan(k) == k.(nextUnblock := Scan(k).nextUnblock)
    ensures forall t :: !DueNow(k, t)
  {
    forall t ensures !DueNow(k, t) {
      assert DueNow(k, t) ==> t in Delayed(k);
    }
  }

  function AdvanceWorld(w: World): World {
    w.(k := Advance(w.k), T := w.T + 1, epoch := if Advance(w.k).tick == 0 then w.epoch + w.k.period else w.epoch)
  }

  /** vTaskIncrementTick while the scheduler runs. */
  ghost function TickOnce(w: World): World
    requires Consistent(w.k.gen) && w.k.suspended == 0
  {
    AdvanceWorld(w).(k := IncrementTick(w.k))
  }

  lemma DelayedEndsInEpoch(w: World, t: Task)
    requires Core(w) && Pendent(w) && t in Delayed(w.k)
    ensures w.k.tick + 1 < w.k.period
  {
    assert IsDelayed(w.k, t) && Deadline(w, t);
  }

  /** When the tick counter wraps, the list that becomes the overflow list is empty. */
  lemma EmptyAtWrap(w: World)
    requires Core(w) && Pendent(w) && w.k.tick + 1 == w.k.period
    ensures Delayed(w.k) == []
  {
    if Delayed(w.k) != [] {
      DelayedEndsInEpoch(w, Delayed(w.k)[0]);
    }
  }

  lemma SwapKeepsOrdered(k: Kernel, k': Kernel)
    requires Consistent(k.gen) && Ordered(k) && k' == SwapLists(k)
    requires Delayed(k) == []
    requires Delayed(k') != [] ==> Get(k.wake, Delayed(k')[0]) <= MaxDelay(k)
    ensures Ordered(k')
  {
    forall t | t in Delayed(k') ensures k'.nextUnblock <= Get(k.wake, t) {
      var s := Delayed(k');
      var i :| 0 <= i < |s| && s[i] == t;
      assert Keys(s, k.wake)[0] <= Keys(s, k.wake)[i];
    }
    assert forall b :: k'.gen.At(Delay(b)) == k.gen.At(Delay(b));
  }

  lemma AdvanceKeepsDeadlines(w: World)
    requires Core(w) && Pendent(w)
    ensures Deadlines(AdvanceWorld(w))
  {
    var w1 := AdvanceWorld(w);
    AdvanceTick(w);
    forall t | IsDelayed(w1.k, t) ensures Deadline(w1, t) {
      assert Deadline(w, t);
      if w1.k.tick == 0 {
        EmptyAtWrap(w);
        assert t !in Delayed(w.k);
      }
    }
  }

  lemma AdvanceTick(w: World)
    requires Clock(w)
    ensures w.k.tick + 1 == w.k.period ==> Advance(w.k).tick == 0
    ensures w.k.tick + 1 < w.k.period ==> Advance(w.k).tick == w.k.tick + 1
    ensures Clock(AdvanceWorld(w))
  {
    if w.k.tick + 1 < w.k.period {
      ModBelow(w.k.tick + 1, w.k.period);
    } else {
      ModOnce(w.k.tick + 1, w.k.period);
      assert (w.k.overflows + 1) * w.k.period == w.k.overflows * w.k.period + w.k.period;
    }
  }

  /** Steps that touch neither lists nor priorities keep every task placed. */
  lemma SameListsKeepPlaced(k: Kernel, k': Kernel)
    requires Placed(k) && Counted(k)
    requires k'.gen == k.gen && k'.ev == k.ev && k'.prio == k.prio && k'.base == k.base && k'.levels == k.levels
    requires k'.top == k.top && k'.idle == k.idle && k'.deleted == k.deleted && k'.tasks == k.tasks
    ensures Placed(k') && Counted(k')
  {
  }

  lemma SameListsKeepOrdered(k: Kernel, k': Kernel)
    requires Ordered(k) && k'.gen == k.gen && k'.wake == k.wake && k'.active == k.active
    requires k'.nextUnblock == k.nextUnblock && k'.period == k.period
    ensures Ordered(k')
  {
    assert forall b :: k'.gen.At(Delay(b)) == k.gen.At(Delay(b));
  }

  lemma AdvanceKeepsCore(w: World)
    requires Core(w) && Pendent(w)
    ensures Core(AdvanceWorld(w))
  {
    var k, k' := w.k, Advance(w.k);
    AdvanceTick(w);
    AdvanceKeepsDeadlines(w);
    SameListsKeepPlaced(k, k');
    if k.tick + 1 == k.period {
      EmptyAtWrap(w);
      var next := k.gen.At(Delay(!k.active));
      if next != [] {
        assert next[0] in next && Deadline(w, next[0]);
      }
      SameListsKeepOrdered(k, k.(tick := 0));
      SwapKeepsOrdered(k.(tick := 0), k');
    } else {
      SameListsKeepOrdered(k, k');
    }
  }

  /** `w'` is `w` some ticks later: the tasks whose deadline passed are ready, and no others moved. */
  ghost predicate WokeOnTime(w: World, w': World) {
    && w.T < w'.T && w'.interrupts == w.interrupts
    && w'.k.prio == w.k.prio && w'.k.suspended == w.k.suspended
    && (forall t :: t in w'.k.gen.where <==> t in w.k.gen.where)
    && (forall t :: IsDelayed(w.k, t) && Due(w, t) <= w'.T ==>
          t in w.k.prio && w'.k.gen.where[t] == Ready(w.k.prio[t]) && t !in w'.k.ev.where)
    && (forall t :: t in w.k.gen.where && !(IsDelayed(w.k, t) && Due(w, t) <= w'.T) ==>
          && w'.k.gen.where[t] == w.k.gen.where[t] && (t in w'.k.ev.where <==> t in w.k.ev.where)
          && (IsDelayed(w.k, t) ==> Due(w', t) == Due(w, t)))
    && (forall t :: t in w'.k.ev.where ==> t in w.k.ev.where && w'.k.ev.where[t] == w.k.ev.where[t])
  }

  /** Advancing the clock, list swap included, leaves every deadline what it was. */
  lemma DueIsStable(w: World, t: Task)
    requires Core(w) && Pendent(w) && IsDelayed(w.k, t)
    ensures IsDelayed(Advance(w.k), t) && Due(AdvanceWorld(w), t) == Due(w, t)
  {
    AdvanceTick(w);
    assert Deadline(w, t);
    if w.k.tick + 1 == w.k.period {
      EmptyAtWrap(w);
      assert t !in Delayed(w.k);
    }
  }

  lemma DueIffReached(w: World, t: Task)
    requires Core(w) && Pendent(w) && t in w.k.gen.where
    ensures DueNow(Advance(w.k), t) <==> IsDelayed(w.k, t) && Due(w, t) <= w.T + 1
  {
    AdvanceTick(w);
    AdvanceKeepsDeadlines(w);
    if IsDelayed(w.k, t) {
      DueIsStable(w, t);
      assert Deadline(AdvanceWorld(w), t);
    }
  }

  lemma TickScansOrSkips(w: World)
    requires Core(w) && Pendent(w) && w.k.suspended == 0
    ensures Core(TickOnce(w)) && WokeDue(Advance(w.k), TickOnce(w).k)
  {
    var a := AdvanceWorld(w);
    AdvanceKeepsCore(w);
    if a.k.tick < a.k.nextUnblock {
      SkippedScanIsIdle(a.k);
    } else {
      ScanWakesDue(a);
    }
  }

  /** xNextTaskUnblockTime is the wake time of the first task of the current list. */
  ghost predicate BoundIsHead(k: Kernel) {
    k.nextUnblock == if Delayed(k) == [] then MaxDelay(k) else Get(k.wake, Delayed(k)[0])
  }

  lemma {:induction false} ScanSetsBound(k: Kernel)
    requires Consistent(k.gen)
    ensures BoundIsHead(Scan(k))
    decreases |Delayed(k)|
  {
    if Delayed(k) != [] && k.tick >= Get(k.wake, Delayed(k)[0]) {
      var t := Delayed(k)[0];
      MovedIsConsistent(k.gen, t, Ready(Get(k.prio, t)), |Unlink(k.gen, t).At(Ready(Get(k.prio, t)))|);
      ScanSetsBound(WakeTask(k, t));
    }
  }

  lemma TickBoundIsHead(w: World)
    requires Core(w) && Pendent(w) && w.k.suspended == 0
    requires w.k.tick + 1 == w.k.period || w.k.tick + 1 >= w.k.nextUnblock
    ensures BoundIsHead(TickOnce(w).k)
  {
    AdvanceKeepsCore(w);
    AdvanceTick(w);
    if Advance(w.k).tick >= Advance(w.k).nextUnblock {
      ScanSetsBound(Advance(w.k));
    }
  }

  /** A tick that wraps the counter or reaches xNextTaskUnblockTime sets that to the earliest wake time on what is then
      the current list, or as late as can be if that is empty. */
  lemma TickSetsBound(w: World)
    requires Core(w) && Pendent(w) && w.k.suspended == 0
    requires w.k.tick + 1 == w.k.period || w.k.tick + 1 >= w.k.nextUnblock
    ensures var k := TickOnce(w).k;
      && (Delayed(k) == [] ==> k.nextUnblock == k.period - 1)
      && (forall t :: t in Delayed(k) ==> k.nextUnblock <= Get(k.wake, t))
      && (Delayed(k) != [] ==> exists t :: t in Delayed(k) && k.nextUnblock == Get(k.wake, t))
  {
    TickScansOrSkips(w);
    TickBoundIsHead(w);
    assert Delayed(TickOnce(w).k) != [] ==> Delayed(TickOnce(w).k)[0] in Delayed(TickOnce(w).k);
  }

  lemma WokeDueIsOnTime(w: World, a: World, w': World)
    requires a.T == w.T + 1 && a.interrupts == w.interrupts
    requires a.k.gen == w.k.gen && a.k.ev == w.k.ev && a.k.prio == w.k.prio && a.k.suspended == w.k.suspended
    requires WokeDue(a.k, w'.k) && w' == a.(k := w'.k)
    requires forall t :: t in w.k.gen.where ==> (DueNow(a.k, t) <==> IsDelayed(w.k, t) && Due(w, t) <= w.T + 1)
    requires forall t :: IsDelayed(w.k, t) ==> Due(a, t) == Due(w, t)
    ensures WokeOnTime(w, w')
  {
    forall t | t in w.k.gen.where && !(IsDelayed(w.k, t) && Due(w, t) <= w'.T)
      ensures w'.k.gen.where[t] == w.k.gen.where[t] && (IsDelayed(w.k, t) ==> Due(w', t) == Due(w, t))
    {
      assert !DueNow(a.k, t);
    }
  }

  /** A tick readies exactly the delayed tasks whose unwrapped deadline it reaches. */
  lemma TickWakesOnTime(w: World)
    requires Core(w) && Pendent(w) && w.k.suspended == 0
    ensures Core(TickOnce(w)) && Pendent(TickOnce(w)) && WokeOnTime(w, TickOnce(w))
  {
    var w' := TickOnce(w);
    TickScansOrSkips(w);
    var a := AdvanceWorld(w);
    forall t | t in w.k.gen.where
      ensures DueNow(a.k, t) <==> IsDelayed(w.k, t) && Due(w, t) <= w.T + 1
      ensures IsDelayed(w.k, t) ==> Due(a, t) == Due(w, t)
    {
      DueIffReached(w, t);
      if IsDelayed(w.k, t) {
        DueIsStable(w, t);
      }
    }
    WokeDueIsOnTime(w, a, w');
    StillDueLater(w, w');
  }

  lemma StillDueLater(w: World, w': World)
    requires Pendent(w) && WokeOnTime(w, w')
    ensures Pendent(w')
  {
  }

  // ---- Resuming the scheduler ----

  /** xTaskResumeAll moves every pending task to its ready list. */
  lemma {:induction false} DrainReadiesPending(w: World)
    requires Core(w) && Pendent(w)
    ensures var k' := DrainPending(w.k);
      && Core(w.(k := k')) && Pendent(w.(k := k')) && k'.ev.At(Pending) == []
      && k' == w.k.(gen := k'.gen, ev := k'.ev, top := k'.top)
      && (forall t :: t in k'.gen.where <==> t in w.k.gen.where)
      && (forall t :: t in w.k.ev.At(Pending) ==> t in w.k.prio && k'.gen.where[t] == Ready(w.k.prio[t]) && t !in k'.ev.where)
      && (forall t :: t in w.k.gen.where && t !in w.k.ev.At(Pending) ==>
            k'.gen.where[t] == w.k.gen.where[t] && (t in k'.ev.where <==> t in w.k.ev.where))
    decreases |w.k.ev.At(Pending)|
  {
    var k := w.k;
    if k.ev.At(Pending) != [] {
      var t := k.ev.At(Pending)[0];
      assert t in k.ev.At(Pending);
      WakeTaskMoves(k, t);
      ReadiedKeepsCore(w, WakeTask(k, t), t);
      FewerDelayed(w, w.(k := WakeTask(k, t)));
      UnlinkIsConsistent(k.ev, t);
      WithoutMembers(k.ev.At(Pending), t);
      DrainReadiesPending(w.(k := WakeTask(k, t)));
    }
  }

  /** The missed ticks, replayed one by one. */
  ghost function ReplayWorld(w: World): (w': World)
    requires Consistent(w.k.gen) && w.k.suspended == 0
    decreases w.k.missed
  {
    if w.k.missed == 0 then w
    else
      TickKeepsCounters(w.k);
      var w1 := TickOnce(w);
      ReplayWorld(w1.(k := w1.k.(missed := w.k.missed - 1)))
  }

  lemma MissedIsIrrelevant(w: World, m: nat) returns (w': World)
    requires Core(w) && Pendent(w)
    ensures w' == WithMissed(w, m) && Core(w') && Pendent(w')
  {
    w' := WithMissed(w, m);
    SameListsKeepPlaced(w.k, w'.k);
    SameListsKeepOrdered(w.k, w'.k);
    FewerDelayed(w, w');
  }

  lemma WokeOnTimeComposes(w: World, w1: World, w2: World)
    requires WokeOnTime(w, w1) && WokeOnTime(w1, w2)
    ensures WokeOnTime(w, w2)
  {
  }

  function WithMissed(w: World, m: nat): World {
    w.(k := w.k.(missed := m))
  }

  lemma ReplayUnfolds(w: World) returns (t: World)
    requires Core(w) && Pendent(w) && w.k.suspended == 0 && w.k.missed > 0
    ensures Core(t) && Pendent(t) && WokeOnTime(w, t) && t.T == w.T + 1 && t.k.suspended == 0
    ensures ReplayWorld(w) == ReplayWorld(WithMissed(t, w.k.missed - 1))
    ensures ReplayTicks(w.k) == ReplayTicks(WithMissed(t, w.k.missed - 1).k)
  {
    t := TickOnce(w);
    TickKeepsCounters(w.k);
    TickWakesOnTime(w);
  }

  lemma ReplayOne(w: World) returns (w1: World)
    requires Core(w) && Pendent(w) && w.k.suspended == 0 && w.k.missed > 0
    ensures Core(w1) && Pendent(w1) && WokeOnTime(w, w1)
    ensures w1.T == w.T + 1 && w1.k.missed == w.k.missed - 1 && w1.k.suspended == 0
    ensures ReplayWorld(w) == ReplayWorld(w1) && ReplayTicks(w.k) == ReplayTicks(w1.k)
  {
    var t := ReplayUnfolds(w);
    w1 := MissedIsIrrelevant(t, w.k.missed - 1);
  }

  /** However many ticks were missed, replaying them wakes each task whose deadline lies among them. */
  lemma {:induction false} ReplayWakesOnTime(w: World)
    requires Core(w) && Pendent(w) && w.k.suspended == 0
    ensures var w' := ReplayWorld(w);
      && w'.k == ReplayTicks(w.k)
      && Core(w') && Pendent(w')
      && w'.T == w.T + w.k.missed && w'.k.missed == 0
      && (if w.k.missed == 0 then w' == w else WokeOnTime(w, w'))
    decreases w.k.missed
  {
    if w.k.missed > 0 {
      var w1 := ReplayOne(w);
      ReplayWakesOnTime(w1);
      if w1.k.missed > 0 {
        WokeOnTimeComposes(w, w1, ReplayWorld(w1));
      }
    }
  }
}
