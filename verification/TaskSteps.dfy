/** The remaining scheduler steps, and the theorems about whole runs. */
module TaskSteps {
  import opened Sequences
  import opened Containers
  import opened Tasks
  import opened TaskInvariants
  import opened Ticks

  // ---- Leaving the delay lists for a list other than a ready list ----

  lemma MovedKeepsInv(w: World, k': Kernel, t: Task, place: Place) returns (w': World)
    requires Inv(w) && t in w.k.gen.where && !w.k.gen.where[t].Terminating? && !place.Delay?
    requires Moved(w.k, k', t, place)
    requires forall u :: u in k'.ev.where ==> u in w.k.ev.where || u == t
    requires t in k'.ev.where ==> Blocked(place)
    requires t == w.k.idle ==> place.Ready?
    requires w.k.suspended == 0 ==> k'.ev.At(Pending) == []
    ensures w' == w.(k := k') && Inv(w')
  {
    w' := w.(k := k');
    MovedKeepsHomed(w.k, k', t, place);
    MovedKeepsOrdered(w.k, k', t, place);
    MovedKeepsDeadlines(w, k', t, place);
    FewerDelayed(w, w');
    assert t !in w.k.gen.At(Terminating);
  }

  /** Unlinking both items of a task and relinking the generic one, as suspension and deletion do. */
  lemma BothUnlinked(k: Kernel, k': Kernel, t: Task, place: Place)
    requires Consistent(k.gen) && Consistent(k.ev) && t in k.gen.where && !k.gen.where[t].Terminating? && k.top < k.levels
    requires place.Suspended? || place.Terminating?
    requires k' == MoveTo(k.(ev := Unlink(k.ev, t), deleted := k'.deleted), t, place)
    requires k'.deleted == if place.Terminating? then k.deleted + 1 else k.deleted
    ensures Moved(k, k', t, place) && k'.ev.where == k.ev.where - {t}
    ensures k.ev.At(Pending) == [] ==> k'.ev.At(Pending) == []
  {
    UnlinkIsConsistent(k.ev, t);
    MovedIsConsistent(k.gen, t, place, |Unlink(k.gen, t).At(place)|);
    assert place.Terminating? ==> t !in k.gen.At(place);
  }

  /** vTaskSuspend */
  lemma SuspendTaskKeepsInv(w: World, t: Task) returns (w': World)
    requires Inv(w) && t in w.k.gen.where && !w.k.gen.where[t].Terminating? && t != w.k.idle
    ensures w' == w.(k := SuspendTask(w.k, t)) && Inv(w')
    ensures w'.k.gen.where == w.k.gen.where[t := Suspended] && w'.k.ev.where == w.k.ev.where - {t}
  {
    BothUnlinked(w.k, SuspendTask(w.k, t), t, Suspended);
    w' := MovedKeepsInv(w, SuspendTask(w.k, t), t, Suspended);
  }

  /** vTaskDelete */
  lemma DeleteKeepsInv(w: World, t: Task) returns (w': World)
    requires Inv(w) && t in w.k.gen.where && !w.k.gen.where[t].Terminating? && t != w.k.idle
    ensures w' == w.(k := Delete(w.k, t)) && Inv(w')
    ensures w'.k.gen.where == w.k.gen.where[t := Terminating] && w'.k.ev.where == w.k.ev.where - {t}
  {
    BothUnlinked(w.k, Delete(w.k, t), t, Terminating);
    w' := MovedKeepsInv(w, Delete(w.k, t), t, Terminating);
  }

  /** Readying a blocked or suspended task, as events, vTaskResume and xTaskResumeFromISR do. */
  lemma ReadyKeepsInv(w: World, t: Task) returns (w': World)
    requires Inv(w) && t in w.k.gen.where && !w.k.gen.where[t].Terminating?
    ensures w' == w.(k := WakeTask(w.k, t)) && Inv(w')
    ensures w'.k.gen.where == w.k.gen.where[t := Ready(w.k.prio[t])] && w'.k.ev.where == w.k.ev.where - {t}
  {
    UnlinkIsConsistent(w.k.ev, t);
    WakeTaskMoves(w.k, t);
    w' := MovedKeepsInv(w, WakeTask(w.k, t), t, Ready(w.k.prio[t]));
  }

  lemma EventListsKeepInv(w: World, ev: Lists<EventPlace>) returns (w': World)
    requires Inv(w) && Consistent(ev)
    requires forall u :: u in ev.where ==> u in w.k.gen.where && Blocked(w.k.gen.where[u])
    requires w.k.suspended == 0 ==> ev.At(Pending) == []
    ensures w' == w.(k := w.k.(ev := ev)) && Inv(w')
  {
    w' := w.(k := w.k.(ev := ev));
    SameListsKeepOrdered(w.k, w'.k);
    FewerDelayed(w, w');
  }

  lemma RelistedEvent(m: Lists<EventPlace>, t: Task, l: EventPlace) returns (ev: Lists<EventPlace>)
    requires Consistent(m)
    ensures ev == PutEnd(Unlink(m, t), l, t) && Consistent(ev) && ev.where == m.where[t := l]
  {
    UnlinkIsConsistent(m, t);
    PutIsConsistent(Unlink(m, t), l, |Unlink(m, t).At(l)|, t);
    ev := PutEnd(Unlink(m, t), l, t);
  }

  /** Holding a readied task on xPendingReadyList while the scheduler is suspended. */
  lemma PendKeepsInv(w: World, t: Task) returns (w': World)
    requires Inv(w) && w.k.suspended > 0 && t in w.k.gen.where && Blocked(w.k.gen.where[t])
    ensures w' == w.(k := w.k.(ev := PutEnd(Unlink(w.k.ev, t), Pending, t))) && Inv(w')
    ensures w'.k.ev.where == w.k.ev.where[t := Pending]
  {
    var ev := RelistedEvent(w.k.ev, t, Pending);
    w' := EventListsKeepInv(w, ev);
  }

  /** xTaskRemoveFromEventList */
  lemma SignalKeepsInv(w: World, e: nat) returns (w': World)
    requires Inv(w) && w.k.ev.At(Event(e)) != []
    ensures w' == w.(k := SignalEvent(w.k, e)) && Inv(w')
    ensures var t := w.k.ev.At(Event(e))[0];
      && t in w.k.gen.where
      && (if w.k.suspended == 0 then
            w'.k.gen.where == w.k.gen.where[t := Ready(w.k.prio[t])] && w'.k.ev.where == w.k.ev.where - {t}
          else
            w'.k.gen == w.k.gen && w'.k.ev.where == w.k.ev.where[t := Pending])
  {
    var t := w.k.ev.At(Event(e))[0];
    assert t in w.k.ev.At(Event(e));
    if w.k.suspended == 0 {
      w' := ReadyKeepsInv(w, t);
    } else {
      w' := PendKeepsInv(w, t);
    }
  }

  lemma NotOnEventList(k: Kernel, t: Task)
    requires t !in k.ev.where
    ensures Unlink(k.ev, t) == k.ev && WakeTask(k, t) == MoveToReady(k, t)
  {
  }

  /** vTaskResume: only a task that vTaskSuspend put aside, and no interrupt has resumed, moves. */
  lemma ResumeTaskKeepsInv(w: World, t: Task) returns (w': World)
    requires Inv(w)
    ensures w' == w.(k := ResumeTask(w.k, t)) && Inv(w')
    ensures if t != w.k.current && IsSuspended(w.k, t) then
        w'.k.gen.where == w.k.gen.where[t := Ready(w.k.prio[t])] && w'.k.ev.where == w.k.ev.where - {t}
      else w' == w
  {
    w' := w;
    if t != w.k.current && IsSuspended(w.k, t) {
      NotOnEventList(w.k, t);
      w' := ReadyKeepsInv(w, t);
    }
  }

  /** xTaskResumeFromISR */
  lemma ResumeFromISRKeepsInv(w: World, t: Task) returns (w': World)
    requires Inv(w)
    ensures w' == w.(k := ResumeFromISR(w.k, t)) && Inv(w')
    ensures if !IsSuspended(w.k, t) then w' == w
      else if w.k.suspended == 0 then w'.k.gen.where == w.k.gen.where[t := Ready(w.k.prio[t])] && w'.k.ev.where == w.k.ev.where - {t}
      else w'.k.gen == w.k.gen && w'.k.ev.where == w.k.ev.where[t := Pending]
  {
    w' := w;
    if IsSuspended(w.k, t) {
      NotOnEventList(w.k, t);
      if w.k.suspended == 0 {
        w' := ReadyKeepsInv(w, t);
      } else {
        w' := PendKeepsInv(w, t);
      }
    }
  }

  // ---- Blocking the current task ----

  /** `k'` is `k` after the current task went to wait on a delay list until `v`. */
  ghost predicate WentToDelay(k: Kernel, k': Kernel, which: bool, v: nat) {
    var t, was := k.current, k.gen.At(Delay(which));
    && k' == k.(gen := k'.gen, ev := k'.ev, wake := k.wake[t := v], nextUnblock := k'.nextUnblock)
    && Consistent(k'.gen) && Consistent(k'.ev)
    && k'.gen.where == k.gen.where[t := Delay(which)]
    && k'.gen.At(Delay(which)) == InsertAt(was, InsertPos(Keys(was, k'.wake), v), t)
    && k'.gen.At(Delay(!which)) == k.gen.At(Delay(!which))
    && k'.gen.At(Terminating) == k.gen.At(Terminating)
    && k'.nextUnblock == (if which == k.active && v < k.nextUnblock then v else k.nextUnblock)
  }

  lemma KeysUntouched(s: seq<Task>, wake: map<Task, nat>, t: Task, v: nat)
    requires t !in s
    ensures Keys(s, wake[t := v]) == Keys(s, wake)
  {
  }

  lemma InsertedKeepsOrder(s: seq<Task>, wake: map<Task, nat>, t: Task, v: nat)
    requires t !in s && Ascending(Keys(s, wake))
    ensures var wake' := wake[t := v];
      Ascending(Keys(InsertAt(s, InsertPos(Keys(s, wake'), v), t), wake'))
  {
    var wake' := wake[t := v];
    KeysUntouched(s, wake, t, v);
    InsertKeepsAscending(Keys(s, wake'), v);
    var p := InsertPos(Keys(s, wake'), v);
    KeysOfInsert(s, p, t, wake');
  }

  lemma DelayingKeepsOrdered(k: Kernel, k': Kernel, which: bool, v: nat)
    requires Consistent(k.gen) && Ordered(k) && IsReady(k, k.current) && WentToDelay(k, k', which, v)
    ensures Ordered(k')
  {
    var t := k.current;
    assert forall b :: t !in k.gen.At(Delay(b));
    forall b ensures Ascending(Keys(k'.gen.At(Delay(b)), k'.wake)) {
      if b == which {
        InsertedKeepsOrder(k.gen.At(Delay(b)), k.wake, t, v);
      } else {
        KeysUntouched(k.gen.At(Delay(b)), k.wake, t, v);
      }
    }
    DelayingKeepsBound(k, k', which, v);
  }

  /** No task on the current list wakes before xNextTaskUnblockTime, once `t` is on list `which` under `v`. */
  lemma DelayingKeepsBound(k: Kernel, k': Kernel, which: bool, v: nat)
    requires Consistent(k.gen) && Ordered(k) && WentToDelay(k, k', which, v) && forall b :: k.current !in k.gen.At(Delay(b))
    ensures forall u :: u in Delayed(k') ==> k'.nextUnblock <= Get(k'.wake, u)
  {
    var was := k.gen.At(Delay(which));
    InsertMembers(was, InsertPos(Keys(was, k'.wake), v), k.current);
    forall u | u in Delayed(k') ensures k'.nextUnblock <= Get(k'.wake, u) {
      if u != k.current {
        assert u in Delayed(k);
      }
    }
  }

  /** The current task went to wait until `deadline`, and no other task moved or was rescheduled. */
  ghost predicate WaitsUntil(w: World, w': World, deadline: nat) {
    && IsDelayed(w'.k, w.k.current) && Due(w', w.k.current) == deadline
    && (forall t :: t in w.k.gen.where && t != w.k.current ==>
          && t in w'.k.gen.where && w'.k.gen.where[t] == w.k.gen.where[t]
          && (IsDelayed(w.k, t) ==> Due(w', t) == Due(w, t)))
  }

  lemma DelayingKeepsDeadlines(w: World, w': World, which: bool, v: nat, deadline: nat)
    requires Deadlines(w) && Pendent(w) && WentToDelay(w.k, w'.k, which, v) && w'.T == w.T && w'.epoch == w.epoch
    requires deadline == w.epoch + v + if which == w.k.active then 0 else w.k.period
    requires v < w.k.period
    requires w.T <= deadline && (deadline == w.T ==> w.k.tick + 1 < w.k.period)
    ensures Deadlines(w') && Pendent(w') && WaitsUntil(w, w', deadline)
  {
    forall t | IsDelayed(w'.k, t)
      ensures Deadline(w', t) && w'.T <= Due(w', t) && (Due(w', t) == w'.T ==> w'.k.tick + 1 < w'.k.period)
    {
      if t != w.k.current {
        assert IsDelayed(w.k, t) && Deadline(w, t);
      }
    }
  }

  lemma DelayingKeepsHomed(k: Kernel, k': Kernel, which: bool, v: nat)
    requires Homed(k) && IsReady(k, k.current) && k.current != k.idle && WentToDelay(k, k', which, v)
    requires forall u :: u in k'.ev.where ==> u in k.ev.where || u == k.current
    ensures Homed(k')
  {
    MovedKeepsHomed(k, k', k.current, Delay(which));
  }

  lemma DelayingKeepsInv(w: World, k': Kernel, which: bool, v: nat, deadline: nat) returns (w': World)
    requires deadline == w.epoch + v + if which == w.k.active then 0 else w.k.period
    requires Inv(w) && IsReady(w.k, w.k.current) && w.k.current != w.k.idle && WentToDelay(w.k, k', which, v)
    requires v < w.k.period && (which == w.k.active ==> w.k.tick <= v && (v == w.k.tick ==> w.k.tick + 1 < w.k.period))
    requires forall u :: u in k'.ev.where ==> u in w.k.ev.where || u == w.k.current
    requires w.k.suspended == 0 ==> k'.ev.At(Pending) == []
    ensures w'.k == k' && SameClock(w, w') && WaitsUntil(w, w', deadline)
    ensures Inv(w')
  {
    w' := w.(k := k');
    DelayingKeepsHomed(w.k, k', which, v);
    DelayingKeepsOrdered(w.k, k', which, v);
    DelayingKeepsDeadlines(w, w', which, v, deadline);
  }

  lemma UnlinkedFromReady(m: Lists<Place>, t: Task) returns (u: Lists<Place>)
    requires Consistent(m) && t in m.where && m.where[t].Ready?
    ensures u == Unlink(m, t) && Consistent(u) && u.where == m.where - {t}
    ensures forall l: Place :: !l.Ready? ==> u.At(l) == m.At(l)
  {
    UnlinkIsConsistent(m, t);
    u := Unlink(m, t);
  }

  lemma PutOnDelay(u: Lists<Place>, t: Task, which: bool, keys: map<Task, nat>) returns (m': Lists<Place>)
    requires Consistent(u) && t !in u.where
    ensures m' == PutSorted(u, Delay(which), t, keys) && Consistent(m') && m'.where == u.where[t := Delay(which)]
    ensures m'.At(Delay(which)) == InsertAt(u.At(Delay(which)), InsertPos(Keys(u.At(Delay(which)), keys), Get(keys, t)), t)
    ensures forall l: Place :: l != Delay(which) ==> m'.At(l) == u.At(l)
  {
    PutIsConsistent(u, Delay(which), InsertPos(Keys(u.At(Delay(which)), keys), Get(keys, t)), t);
    m' := PutSorted(u, Delay(which), t, keys);
  }

  lemma RelistedOnDelay(m: Lists<Place>, t: Task, which: bool, keys: map<Task, nat>) returns (m': Lists<Place>)
    requires Consistent(m) && t in m.where && m.where[t].Ready?
    ensures m' == PutSorted(Unlink(m, t), Delay(which), t, keys) && Consistent(m')
    ensures m'.where == m.where[t := Delay(which)]
    ensures m'.At(Delay(which)) == InsertAt(m.At(Delay(which)), InsertPos(Keys(m.At(Delay(which)), keys), Get(keys, t)), t)
    ensures forall l: Place :: !l.Ready? && l != Delay(which) ==> m'.At(l) == m.At(l)
  {
    var u := UnlinkedFromReady(m, t);
    m' := PutOnDelay(u, t, which, keys);
    assert (m.where - {t})[t := Delay(which)] == m.where[t := Delay(which)];
  }

  /** prvAddCurrentTaskToDelayedList: a wake time already behind the counter belongs to the next epoch. */
  lemma MoveToDelayedLists(k: Kernel, v: nat) returns (k': Kernel)
    requires Consistent(k.gen) && Consistent(k.ev) && IsReady(k, k.current)
    ensures k' == MoveToDelayed(k, v)
    ensures WentToDelay(k, k', if v < k.tick then !k.active else k.active, v) && k'.ev == k.ev
  {
    var which := if v < k.tick then !k.active else k.active;
    var gen := RelistedOnDelay(k.gen, k.current, which, k.wake[k.current := v]);
    k' := MoveToDelayed(k, v);
    assert k'.gen == gen;
  }

  /** The wrapped wake time, and on which list it goes: the other one if it lies in the next epoch. */
  lemma WakeTimeWraps(k: Kernel, ticks: nat) returns (v: nat, which: bool)
    requires k.tick < k.period && ticks < k.period && (ticks == 0 ==> k.tick + 1 < k.period)
    ensures v == (k.tick + ticks) % k.period && v < k.period
    ensures which == if v < k.tick then !k.active else k.active
    ensures k.tick + ticks == v + if which == k.active then 0 else k.period
    ensures which == k.active ==> k.tick <= v && (v == k.tick ==> k.tick + 1 < k.period)
  {
    v := (k.tick + ticks) % k.period;
    which := if v < k.tick then !k.active else k.active;
    if k.tick + ticks < k.period {
      ModBelow(k.tick + ticks, k.period);
    } else {
      ModOnce(k.tick + ticks, k.period);
    }
  }

  lemma DelayForMoves(k: Kernel, ticks: nat, v: nat)
    requires v == (k.tick + ticks) % k.period
    ensures DelayFor(k, ticks) == MoveToDelayed(k, v)
  {
  }

  /** Where the current task goes to wait for `ticks` ticks. */
  lemma DelayForLists(k: Kernel, ticks: nat) returns (k': Kernel, which: bool, v: nat)
    requires Consistent(k.gen) && Consistent(k.ev) && IsReady(k, k.current)
    requires k.tick < k.period && ticks < k.period && (ticks == 0 ==> k.tick + 1 < k.period)
    ensures k' == DelayFor(k, ticks) && k'.ev == k.ev
    ensures WentToDelay(k, k', which, v) && v < k.period
    ensures k.tick + ticks == v + if which == k.active then 0 else k.period
    ensures which == k.active ==> k.tick <= v && (v == k.tick ==> k.tick + 1 < k.period)
  {
    v, which := WakeTimeWraps(k, ticks);
    k' := MoveToDelayedLists(k, v);
    DelayForMoves(k, ticks, v);
  }

  ghost predicate SameClock(w: World, w': World) {
    w'.T == w.T && w'.epoch == w.epoch && w'.interrupts == w.interrupts
  }

  /** The suspended stretch of vTaskDelay: the deadline is `ticks` from now on the unwrapped clock. */
  lemma DelayKeepsInv(w: World, ticks: nat) returns (w': World)
    requires Inv(w) && IsReady(w.k, w.k.current) && w.k.current != w.k.idle
    requires ticks < w.k.period && (ticks == 0 ==> w.k.tick + 1 < w.k.period)
    ensures Inv(w') && SameClock(w, w')
    ensures w'.k == DelayFor(w.k, ticks)
    ensures w'.k.ev == w.k.ev && WaitsUntil(w, w', w.T + ticks)
  {
    var k', which, v := DelayForLists(w.k, ticks);
    w' := DelayingKeepsInv(w, k', which, v, w.T + ticks);
  }

  lemma JoinEventList(k: Kernel, e: nat, at: nat) returns (k1: Kernel)
    requires Consistent(k.ev) && k.current !in k.ev.where && at <= |k.ev.At(Event(e))|
    ensures k1 == k.(ev := Put(k.ev, Event(e), at, k.current)) && Consistent(k1.ev)
    ensures k1.ev.where == k.ev.where[k.current := Event(e)] && k1.ev.At(Pending) == k.ev.At(Pending)
    ensures k1.ev.At(Event(e)) == InsertAt(k.ev.At(Event(e)), at, k.current)
  {
    PutIsConsistent(k.ev, Event(e), at, k.current);
    k1 := k.(ev := Put(k.ev, Event(e), at, k.current));
  }

  lemma BlockForTicks(w: World, k1: Kernel, ticks: nat) returns (w': World)
    requires Inv(w) && IsReady(w.k, w.k.current) && w.k.current != w.k.idle
    requires ticks < w.k.period && (ticks == 0 ==> w.k.tick + 1 < w.k.period)
    requires k1 == w.k.(ev := k1.ev) && Consistent(k1.ev) && k1.ev.At(Pending) == w.k.ev.At(Pending)
    requires forall u :: u in k1.ev.where ==> u in w.k.ev.where || u == w.k.current
    ensures Inv(w') && SameClock(w, w')
    ensures w'.k == DelayFor(k1, ticks) && w'.k.ev == k1.ev
    ensures WaitsUntil(w, w', w.T + ticks)
  {
    var k', which, v := DelayForLists(k1, ticks);
    w' := DelayingKeepsInv(w, k', which, v, w.T + ticks);
  }

  /** vTaskPlaceOnEventList: a task that waits for ever is suspended, any other gets its deadline. */
  lemma BlockKeepsInv(w: World, e: nat, ticks: nat) returns (w': World)
    requires Inv(w) && IsReady(w.k, w.k.current) && w.k.current != w.k.idle
    requires ticks < w.k.period && (ticks == 0 ==> w.k.tick + 1 < w.k.period)
    ensures Inv(w') && SameClock(w, w') && w'.k == PlaceOnEventList(w.k, e, ticks)
    ensures w'.k.ev.where == w.k.ev.where[w.k.current := Event(e)]
    ensures if ticks == MaxDelay(w.k) then w'.k.gen.where == w.k.gen.where[w.k.current := Suspended]
        && w'.k.wake == w.k.wake && w'.k.active == w.k.active && w'.k.period == w.k.period
      else WaitsUntil(w, w', w.T + ticks)
  {
    var k := w.k;
    var k1 := JoinEventList(k, e, InsertPos(Keys(k.ev.At(Event(e)), k.evVal), Get(k.evVal, k.current)));
    if ticks == MaxDelay(k) {
      MovedIsConsistent(k.gen, k.current, Suspended, |Unlink(k.gen, k.current).At(Suspended)|);
      w' := MovedKeepsInv(w, MoveTo(k1, k.current, Suspended), k.current, Suspended);
    } else {
      w' := BlockForTicks(w, k1, ticks);
    }
  }

  /** vTaskPlaceOnEventListRestricted, which never suspends. */
  lemma BlockRestrictedKeepsInv(w: World, e: nat, ticks: nat, at: nat) returns (w': World)
    requires Inv(w) && IsReady(w.k, w.k.current) && w.k.current != w.k.idle && at <= |w.k.ev.At(Event(e))|
    requires ticks < w.k.period && (ticks == 0 ==> w.k.tick + 1 < w.k.period)
    ensures Inv(w') && SameClock(w, w') && w'.k == PlaceRestricted(w.k, e, ticks, at)
    ensures w'.k.ev.where == w.k.ev.where[w.k.current := Event(e)]
    ensures WaitsUntil(w, w', w.T + ticks)
  {
    var k1 := JoinEventList(w.k, e, at);
    w' := BlockForTicks(w, k1, ticks);
  }

  // ---- Tasks come and go ----

  lemma CreatedKeepsHomed(k: Kernel, k': Kernel, t: Task, p: nat)
    requires Homed(k) && t !in k.prio && p < k.levels
    requires k'.prio == k.prio[t := p] && k'.base == k.base[t := p] && k'.levels == k.levels && k'.idle == k.idle
    requires k'.gen.where == k.gen.where[t := Ready(p)] && k'.ev == k.ev
    requires k'.top == if p > k.top then p else k.top
    ensures Homed(k')
  {
  }

  /** Steps that leave the delay lists and the clock alone. */
  lemma OtherListsKeepOrder(w: World, w': World)
    requires Ordered(w.k) && Deadlines(w) && Pendent(w)
    requires forall b :: w'.k.gen.At(Delay(b)) == w.k.gen.At(Delay(b))
    requires forall t :: IsDelayed(w'.k, t) ==> t in w.k.gen.where && w'.k.gen.where[t] == w.k.gen.where[t]
    requires w'.k.wake == w.k.wake && w'.k.active == w.k.active && w'.k.nextUnblock == w.k.nextUnblock
    requires w'.k.period == w.k.period && w'.k.tick == w.k.tick && SameClock(w, w')
    ensures Ordered(w'.k) && Deadlines(w') && Pendent(w')
  {
    FewerDelayed(w, w');
  }

  /** Putting a task that is new, or ready elsewhere, on a ready list. */
  lemma RelistedReady(m: Lists<Place>, t: Task, p: nat) returns (m': Lists<Place>)
    requires Consistent(m) && (t in m.where ==> m.where[t].Ready?)
    ensures m' == PutEnd(Unlink(m, t), Ready(p), t) && Consistent(m') && m'.where == m.where[t := Ready(p)]
    ensures forall l: Place :: !l.Ready? ==> m'.At(l) == m.At(l)
  {
    m' := PutEnd(Unlink(m, t), Ready(p), t);
    MovedIsConsistent(m, t, Ready(p), |Unlink(m, t).At(Ready(p))|);
  }

  /** `k'` differs from `k` in ready lists, priorities and task count only. */
  ghost predicate ReadyStep(k: Kernel, k': Kernel) {
    && k' == k.(gen := k'.gen, prio := k'.prio, base := k'.base, evVal := k'.evVal, top := k'.top, tasks := k'.tasks)
    && Consistent(k'.gen)
    && (forall l: Place :: !l.Ready? ==> k'.gen.At(l) == k.gen.At(l))
  }

  lemma CreateMakes(k: Kernel, t: Task, priority: nat) returns (k': Kernel)
    requires Consistent(k.gen) && t !in k.gen.where
    ensures k' == Create(k, t, priority) && ReadyStep(k, k')
    ensures k'.gen.where == k.gen.where[t := Ready(Cap(k, priority))]
    ensures var p := Cap(k, priority);
      k'.prio == k.prio[t := p] && k'.base == k.base[t := p] && k'.top == (if p > k.top then p else k.top) && k'.tasks == k.tasks + 1
  {
    k' := Create(k, t, priority);
    var gen := RelistedReady(k.gen, t, Cap(k, priority));
    assert k'.gen == gen;
  }

  lemma ReadyStepKeepsInv(w: World, k': Kernel) returns (w': World)
    requires Inv(w) && ReadyStep(w.k, k') && Homed(k') && Counted(k')
    requires forall t :: t in k'.gen.where && k'.gen.where[t].Delay? ==> t in w.k.gen.where && k'.gen.where[t] == w.k.gen.where[t]
    ensures w' == w.(k := k') && Inv(w')
  {
    w' := w.(k := k');
    OtherListsKeepOrder(w, w');
  }

  lemma CreatedKeepsCounted(k: Kernel, k': Kernel, t: Task, p: nat)
    requires Counted(k) && t !in k.prio && k'.prio == k.prio[t := p] && k'.tasks == k.tasks + 1
    requires k'.deleted == k.deleted && k'.gen.At(Terminating) == k.gen.At(Terminating)
    ensures Counted(k')
  {
  }

  /** xTaskGenericCreate */
  lemma CreateKeepsInv(w: World, t: Task, priority: nat) returns (w': World)
    requires Inv(w) && t !in w.k.prio
    ensures w' == w.(k := Create(w.k, t, priority)) && Inv(w')
    ensures w'.k.gen.where == w.k.gen.where[t := Ready(Cap(w.k, priority))] && w'.k.ev == w.k.ev
  {
    assert t !in w.k.gen.where;
    var k' := CreateMakes(w.k, t, priority);
    CreatedKeepsHomed(w.k, k', t, Cap(w.k, priority));
    CreatedKeepsCounted(w.k, k', t, Cap(w.k, priority));
    w' := ReadyStepKeepsInv(w, k');
  }

  // ---- Priorities ----

  lemma RepricedKeepsHomed(k: Kernel, k': Kernel, t: Task, p: nat, b: nat)
    requires Homed(k) && t in k.prio && p < k.levels && b < k.levels
    requires k'.prio == k.prio[t := p] && k'.base == k.base[t := b] && k'.levels == k.levels && k'.idle == k.idle
    requires k'.ev == k.ev && k.top <= k'.top < k.levels
    requires if k.gen.where[t].Ready? then p <= k'.top && k'.gen.where == k.gen.where[t := Ready(p)] else k'.gen.where == k.gen.where
    ensures Homed(k')
  {
  }

  /** Tasks only moved between ready lists. */
  ghost predicate OnlyReadyMoved(k: Kernel, k': Kernel) {
    && k'.wake == k.wake && k'.active == k.active && k'.period == k.period
    && forall t :: t in k.gen.where ==>
         t in k'.gen.where && (k'.gen.where[t] == k.gen.where[t] || (k.gen.where[t].Ready? && k'.gen.where[t].Ready?))
  }

  function Repriced(k: Kernel, t: Task, p: nat, b: nat, v: nat): Kernel {
    var k1 := k.(prio := k.prio[t := p], base := k.base[t := b], evVal := k.evVal[t := v]);
    if IsReady(k, t) then MoveToReady(k1, t) else k1
  }

  lemma RepricedMakes(k: Kernel, t: Task, p: nat, b: nat, v: nat) returns (k': Kernel)
    requires Consistent(k.gen) && t in k.prio
    ensures k' == Repriced(k, t, p, b, v) && ReadyStep(k, k')
    ensures k'.gen.where == if IsReady(k, t) then k.gen.where[t := Ready(p)] else k.gen.where
    ensures k'.top == if IsReady(k, t) && p > k.top then p else k.top
    ensures k'.prio == k.prio[t := p] && k'.base == k.base[t := b] && k'.tasks == k.tasks
  {
    k' := Repriced(k, t, p, b, v);
    if IsReady(k, t) {
      var gen := RelistedReady(k.gen, t, p);
      assert k'.gen == gen;
    }
  }

  lemma UpdateKeepsSize(m: map<Task, nat>, t: Task, p: nat)
    requires t in m
    ensures |m[t := p]| == |m|
  {
    assert m[t := p].Keys == m.Keys;
    assert |m[t := p].Keys| == |m[t := p]| && |m.Keys| == |m|;
  }

  lemma RepricedKeepsCounted(k: Kernel, k': Kernel, t: Task, p: nat)
    requires Counted(k) && ReadyStep(k, k') && t in k.prio && k'.prio == k.prio[t := p] && k'.tasks == k.tasks
    ensures Counted(k')
  {
    UpdateKeepsSize(k.prio, t, p);
  }

  /** Changing the priorities of a task, which moves it if it is ready. */
  lemma RepricedKeepsInv(w: World, t: Task, p: nat, b: nat, v: nat) returns (w': World)
    requires Inv(w) && t in w.k.prio && p < w.k.levels && b < w.k.levels
    ensures w' == w.(k := Repriced(w.k, t, p, b, v)) && Inv(w')
    ensures OnlyReadyMoved(w.k, w'.k) && SameClock(w, w')
    ensures w'.k.prio == w.k.prio[t := p] && w'.k.base == w.k.base[t := b]
    ensures w'.k.gen.where == if IsReady(w.k, t) then w.k.gen.where[t := Ready(p)] else w.k.gen.where
  {
    assert t in w.k.gen.where;
    var k' := RepricedMakes(w.k, t, p, b, v);
    RepricedKeepsHomed(w.k, k', t, p, b);
    RepricedKeepsCounted(w.k, k', t, p);
    w' := ReadyStepKeepsInv(w, k');
  }

  lemma InheritIsRepriced(k: Kernel, holder: Task)
    requires Homed(k) && holder in k.prio
    ensures Get(k.prio, k.current) < k.levels
    ensures Inherit(k, holder) ==
      if k.prio[holder] >= Get(k.prio, k.current) then k
      else Repriced(k, holder, Get(k.prio, k.current), k.base[holder], EventValue(k, Get(k.prio, k.current)))
  {
    assert holder in k.gen.where && (k.current in k.prio ==> k.current in k.gen.where);
    assert k.base[holder := k.base[holder]] == k.base;
  }

  lemma DisinheritIsRepriced(k: Kernel, holder: Task)
    requires Homed(k) && holder in k.prio && (IsReady(k, holder) || k.prio[holder] == k.base[holder])
    ensures Disinherit(k, holder) ==
      if k.prio[holder] == k.base[holder] then k
      else Repriced(k, holder, k.base[holder], k.base[holder], EventValue(k, k.base[holder]))
  {
    assert holder in k.gen.where;
    assert k.base[holder := k.base[holder]] == k.base;
  }

  /** vTaskPriorityInherit: the holder runs at least at the priority of the task about to wait. */
  lemma InheritKeepsInv(w: World, holder: Task) returns (w': World)
    requires Inv(w) && holder in w.k.prio
    ensures w' == w.(k := Inherit(w.k, holder)) && Inv(w') && OnlyReadyMoved(w.k, w'.k)
    ensures w'.k.prio == w.k.prio[holder := if Get(w.k.prio, w.k.current) > w.k.prio[holder] then Get(w.k.prio, w.k.current) else w.k.prio[holder]]
    ensures w'.k.gen.where == if Get(w.k.prio, w.k.current) > w.k.prio[holder] && IsReady(w.k, holder)
      then w.k.gen.where[holder := Ready(Get(w.k.prio, w.k.current))] else w.k.gen.where
  {
    var p := Get(w.k.prio, w.k.current);
    InheritIsRepriced(w.k, holder);
    assert holder in w.k.gen.where && w.k.prio[holder := w.k.prio[holder]] == w.k.prio;
    if w.k.prio[holder] >= p {
      w' := w;
    } else {
      w' := RepricedKeepsInv(w, holder, p, w.k.base[holder], EventValue(w.k, p));
    }
  }

  /** Whether a task can be put on a ready list: it waits for no event and has not been deleted. */
  ghost predicate MayBeReadied(k: Kernel, t: Task) {
    t !in k.ev.where && (t in k.gen.where ==> !k.gen.where[t].Terminating?)
  }

  lemma DisinheritWakes(k: Kernel, holder: Task)
    requires Homed(k) && holder in k.prio && !IsReady(k, holder) && k.prio[holder] != k.base[holder] && holder !in k.ev.where
    ensures Disinherit(k, holder) == WakeTask(Repriced(k, holder, k.base[holder], k.base[holder], EventValue(k, k.base[holder])), holder)
  {
    assert holder in k.gen.where;
    assert k.base[holder := k.base[holder]] == k.base;
    NotOnEventList(Repriced(k, holder, k.base[holder], k.base[holder], EventValue(k, k.base[holder])), holder);
  }

  /** vTaskPriorityDisinherit: a holder that had inherited is put on the ready list of its base priority. */
  lemma DisinheritKeepsInv(w: World, holder: Task) returns (w': World)
    requires Inv(w) && holder in w.k.prio && (MayBeReadied(w.k, holder) || w.k.prio[holder] == w.k.base[holder])
    ensures w' == w.(k := Disinherit(w.k, holder)) && Inv(w')
    ensures w'.k.prio == w.k.prio[holder := w.k.base[holder]]
    ensures IsReady(w.k, holder) || w.k.prio[holder] == w.k.base[holder] ==> OnlyReadyMoved(w.k, w'.k)
    ensures w.k.prio[holder] != w.k.base[holder] ==> w'.k.gen.where == w.k.gen.where[holder := Ready(w.k.base[holder])]
  {
    assert holder in w.k.gen.where && w.k.prio[holder := w.k.prio[holder]] == w.k.prio;
    var p, v := w.k.base[holder], EventValue(w.k, w.k.base[holder]);
    if w.k.prio[holder] == p {
      w' := w;
    } else if IsReady(w.k, holder) {
      DisinheritIsRepriced(w.k, holder);
      w' := RepricedKeepsInv(w, holder, p, p, v);
    } else {
      DisinheritWakes(w.k, holder);
      var w1 := RepricedKeepsInv(w, holder, p, p, v);
      w' := ReadyKeepsInv(w1, holder);
    }
  }

  /** vTaskPrioritySet on a task that runs at an inherited priority changes its base priority only. */
  lemma SetInheritedBase(w: World, t: Task, p: nat, v: nat) returns (w': World)
    requires Inv(w) && t in w.k.prio && p < w.k.levels
    ensures w' == w.(k := w.k.(base := w.k.base[t := p], evVal := w.k.evVal[t := v])) && Inv(w') && OnlyReadyMoved(w.k, w'.k)
  {
    var k' := w.k.(base := w.k.base[t := p], evVal := w.k.evVal[t := v]);
    RebasedKeepsHomed(w.k, k', t, p);
    w' := ReadyStepKeepsInv(w, k');
  }

  lemma RebasedKeepsHomed(k: Kernel, k': Kernel, t: Task, p: nat)
    requires Homed(k) && t in k.prio && p < k.levels && k' == k.(base := k.base[t := p], evVal := k'.evVal)
    ensures Homed(k')
  {
    assert t in k.gen.where;
  }

  lemma SetPriorityForms(k: Kernel, t: Task, priority: nat, p: nat, v: nat)
    requires Homed(k) && t in k.prio && t in k.base
    requires Cap(k, priority) == p && EventValue(k, p) == v
    ensures SetPriority(k, t, priority) ==
      if p == k.base[t] then k
      else if k.prio[t] == k.base[t] then Repriced(k, t, p, p, v)
      else k.(base := k.base[t := p], evVal := k.evVal[t := v])
  {
    assert t in k.gen.where;
    assert k.prio[t := k.prio[t]] == k.prio;
  }

  /** vTaskPrioritySet */
  lemma SetPriorityKeepsInv(w: World, t: Task, priority: nat) returns (w': World)
    requires Inv(w) && t in w.k.prio
    ensures w' == w.(k := SetPriority(w.k, t, priority)) && Inv(w') && OnlyReadyMoved(w.k, w'.k)
    ensures w'.k.base == w.k.base[t := Cap(w.k, priority)]
    ensures w'.k.prio == if w.k.prio[t] == w.k.base[t] then w.k.prio[t := Cap(w.k, priority)] else w.k.prio
  {
    var k, p, v := w.k, Cap(w.k, priority), EventValue(w.k, Cap(w.k, priority));
    assert t in k.gen.where;
    SetPriorityForms(k, t, priority, p, v);
    if p == k.base[t] {
      w' := w;
      assert k.base[t := p] == k.base && (k.prio[t] == p ==> k.prio[t := p] == k.prio);
    } else if k.prio[t] == k.base[t] {
      w' := RepricedKeepsInv(w, t, p, p, v);
    } else {
      w' := SetInheritedBase(w, t, p, v);
    }
  }

  // ---- Choosing a task ----

  /** The level vTaskSwitchContext stops at is the highest with a ready task, if any has one. */
  lemma {:induction false} TopReadyIsHighest(gen: Lists<Place>, p: nat)
    ensures var q := TopReady(gen, p);
      && q <= p
      && (forall l :: q < l <= p ==> gen.At(Ready(l)) == [])
      && (forall l :: 0 <= l <= p && gen.At(Ready(l)) != [] ==> gen.At(Ready(q)) != [])
  {
    if p != 0 && gen.At(Ready(p)) == [] {
      TopReadyIsHighest(gen, p - 1);
    }
  }

  lemma RotatedIsConsistent(m: Lists<Place>, l: Place) returns (m': Lists<Place>)
    requires Consistent(m) && m.At(l) != []
    ensures m' == Lists(m.seqs[l := Rotate(m.At(l))], m.where) && Consistent(m')
    ensures forall l' :: m'.At(l') == if l' == l then Rotate(m.At(l)) else m.At(l')
  {
    m' := Lists(m.seqs[l := Rotate(m.At(l))], m.where);
    RotateMembers(m.At(l));
    assert forall l' :: m'.At(l') == if l' == l then Rotate(m.At(l)) else m.At(l');
    forall t, l' ensures t in m'.At(l') <==> t in m'.where && m'.where[t] == l' {
      assert t in m.At(l') <==> t in m.where && m.where[t] == l';
    }
  }

  lemma SomeTaskIsReady(k: Kernel)
    requires Placed(k)
    ensures k.gen.At(Ready(TopReady(k.gen, k.top))) != []
    ensures forall t :: t in k.gen.where && k.gen.where[t].Ready? ==> k.gen.where[t].level <= TopReady(k.gen, k.top)
  {
    TopReadyIsHighest(k.gen, k.top);
    assert k.idle in k.gen.At(k.gen.where[k.idle]);
    forall t | t in k.gen.where && k.gen.where[t].Ready? ensures k.gen.where[t].level <= TopReady(k.gen, k.top) {
      assert t in k.gen.At(k.gen.where[t]);
    }
  }
}
